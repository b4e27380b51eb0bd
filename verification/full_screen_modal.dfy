/**
 * The full-screen image viewer: the file name its download action derives
 * from the image's prompt, and the prompt its remix action hands back.
 */
module FullScreenModal {
  import opened Wrappers
  import opened Utf16Text
  import opened Types

  const Underscore: CodeUnit := 0x5F
  const UpperA: CodeUnit := 0x41
  const LowerA: CodeUnit := 0x61
  /** The distance between an ASCII capital and its small letter. */
  const CaseOffset: CodeUnit := 0x20

  predicate IsAsciiUpper(c: CodeUnit) { UpperA <= c <= UpperA + 25 }
  predicate IsAsciiLower(c: CodeUnit) { LowerA <= c <= LowerA + 25 }

  /**
   * Membership in `/[a-z0-9]/i`. Without the `u` flag, case-insensitive
   * matching never folds a non-ASCII code unit onto an ASCII one, so the
   * class holds exactly the ASCII letters of both cases and the digits.
   */
  predicate IsAlnum(c: CodeUnit) { IsAsciiUpper(c) || IsAsciiLower(c) || IsDigit(c) }

  /** The alphabet of a sanitised name: `[a-z0-9_]`. */
  predicate IsNameUnit(c: CodeUnit) { IsAsciiLower(c) || IsDigit(c) || c == Underscore }

  /** `s.replace(/[^a-z0-9]/gi, '_')`: every code unit outside the class becomes `_`. */
  function ReplaceNonAlnum(s: Text): (r: Text)
    ensures |r| == |s|
    ensures forall i :: 0 <= i < |s| ==> if IsAlnum(s[i]) then r[i] == s[i] else r[i] == Underscore
  {
    if s == [] then []
    else [if IsAlnum(s[0]) then s[0] else Underscore] + ReplaceNonAlnum(s[1..])
  }

  /**
   * `toLowerCase` on ASCII: capitals become small letters, every other
   * code unit is kept.
   */
  function ToLowerAscii(s: Text): (r: Text)
    ensures |r| == |s|
    ensures forall i :: 0 <= i < |s| ==> if IsAsciiUpper(s[i]) then r[i] == s[i] + CaseOffset else r[i] == s[i]
  {
    if s == [] then []
    else [if IsAsciiUpper(s[0]) then s[0] + CaseOffset else s[0]] + ToLowerAscii(s[1..])
  }

  const MaxNameLength := 30

  function Min(a: int, b: int): int { if a <= b then a else b }

  /** `substring(0, n)`: the first `n` code units, or all of them when there are fewer. */
  function Substring(s: Text, n: nat): (r: Text)
    ensures |r| == Min(n, |s|) && r == s[..|r|]
  {
    if n < |s| then s[..n] else s
  }

  /**
   * The file-name stem derived from a prompt:
   * `prompt.replace(/[^a-z0-9]/gi, '_').toLowerCase().substring(0, 30)`.
   */
  function SanitizedName(prompt: Text): (r: Text)
    ensures |r| == Min(MaxNameLength, |prompt|)
    ensures forall i :: 0 <= i < |r| ==> IsNameUnit(r[i])
    ensures forall i :: 0 <= i < |r| ==>
      (IsAsciiUpper(prompt[i]) ==> r[i] == prompt[i] + CaseOffset) &&
      (IsAsciiLower(prompt[i]) || IsDigit(prompt[i]) ==> r[i] == prompt[i]) &&
      (!IsAlnum(prompt[i]) ==> r[i] == Underscore)
  {
    Substring(ToLowerAscii(ReplaceNonAlnum(prompt)), MaxNameLength)
  }

  /** Sanitising a name that is already sanitised leaves it as it is. */
  lemma {:induction false} SanitizedNameIdempotent(prompt: Text)
    ensures SanitizedName(SanitizedName(prompt)) == SanitizedName(prompt)
  {
    var name := SanitizedName(prompt);
    var again := SanitizedName(name);
    assert |again| == |name|;
    forall i | 0 <= i < |name|
      ensures again[i] == name[i]
    {
      assert IsNameUnit(name[i]);
    }
  }

  const FileNamePrefix: Text := Bmp("ai_wallpaper_")
  const FileNameExtension: Text := Bmp(".jpg")

  /** The download attribute: `ai_wallpaper_${fileName}.jpg`. */
  function DownloadFileName(prompt: Text): (r: Text)
    ensures |r| == |FileNamePrefix| + Min(MaxNameLength, |prompt|) + |FileNameExtension|
    ensures |FileNamePrefix| == 13 && |FileNameExtension| == 4
    ensures r[..|FileNamePrefix|] == FileNamePrefix
    ensures r[|r| - |FileNameExtension|..] == FileNameExtension
    ensures r[|FileNamePrefix|..|r| - |FileNameExtension|] == SanitizedName(prompt)
    ensures forall i :: |FileNamePrefix| <= i < |r| - |FileNameExtension| ==> IsNameUnit(r[i])
  {
    var name := SanitizedName(prompt);
    var r := FileNamePrefix + name + FileNameExtension;
    assert r[|FileNamePrefix|..|r| - |FileNameExtension|] == name;
    r
  }

  /**
   * The argument the remix button passes to `onRemix`: the shown image's
   * stored prompt, unchanged. With no image the modal renders nothing, so
   * there is no remix button.
   */
  function RemixPrompt(image: Option<ImageResult>): (r: Option<Text>)
    ensures r.Some? <==> image.Some?
    ensures r.Some? ==> r.value == image.value.prompt
  {
    match image
    case None => None
    case Some(img) => Some(img.prompt)
  }
}
