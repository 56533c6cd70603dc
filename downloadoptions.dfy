/** components/DownloadOptions.tsx: the export rules behind the download
    buttons, and the `processingId` flag that keeps them disabled while an
    export is under way. */
module DownloadOptions {
  import opened Types
  import opened GeminiService

  datatype Format = Jpeg | Png

  // ---------------------------------------------------------------------
  // Quality

  /** The quality slider: 10 to 100 in steps of 5, as a percentage. */
  predicate SliderValue(percent: int) {
    10 <= percent <= 100 && percent % 5 == 0
  }

  /** The initial quality, 0.9. */
  const InitialQualityPercent := 90

  /** The `quality` state: the slider value divided by 100. */
  function Quality(percent: int): real {
    percent as real / 100.0
  }

  /** Every slider position gives a quality in [0.1, 1.0], and only the
      rightmost one exceeds 0.95. */
  lemma SliderQuality(percent: int)
    requires SliderValue(percent)
    ensures 0.1 <= Quality(percent) <= 1.0
    ensures Quality(percent) > 0.95 <==> percent == 100
  {
    if percent != 100 {
      assert percent <= 95;
    }
  }

  /** The encoder quality: the chosen one for jpeg, 1.0 for png. */
  function ExportQuality(format: Format, percent: int): (q: real)
    ensures format == Png ==> q == 1.0
    ensures format == Jpeg ==> q == Quality(percent)
  {
    if format == Jpeg then Quality(percent) else 1.0
  }

  lemma ExportQualityBounds(format: Format, percent: int)
    requires SliderValue(percent)
    ensures 0.1 <= ExportQuality(format, percent) <= 1.0
  {
    SliderQuality(percent);
  }

  // ---------------------------------------------------------------------
  // The direct path

  /** `maxWidth` as a JavaScript condition: absent and 0 are both false. */
  predicate ResizeRequested(maxWidth: Option<nat>) {
    maxWidth.Some? && maxWidth.value != 0
  }

  const JpegUrlPrefix := "data:image/jpeg"

  /** The original bytes are handed over without re-encoding exactly when a
      full-size jpeg is asked for, the image already is a jpeg data URL and
      the quality is above 0.95. */
  predicate IsDirectDownload(format: Format, imageUrl: string, maxWidth: Option<nat>, percent: int) {
    format == Jpeg && JpegUrlPrefix <= imageUrl && !ResizeRequested(maxWidth) && Quality(percent) > 0.95
  }

  /** With the slider, the direct path needs the quality at exactly 100%. */
  lemma DirectOnlyAtFullQuality(format: Format, imageUrl: string, maxWidth: Option<nat>, percent: int)
    requires SliderValue(percent)
    ensures IsDirectDownload(format, imageUrl, maxWidth, percent) <==>
              format == Jpeg && JpegUrlPrefix <= imageUrl && !ResizeRequested(maxWidth) && percent == 100
  {
    SliderQuality(percent);
  }

  // ---------------------------------------------------------------------
  // Canvas size

  /** A requested width as a canvas coordinate. */
  function Px(maxWidth: Option<nat>): real
    requires maxWidth.Some?
  {
    maxWidth.value as real
  }

  /** The canvas size: scaled down to `maxWidth` when one is requested and
      the image is wider, otherwise the image's own size. */
  function CanvasSize(width: real, height: real, maxWidth: Option<nat>): (r: Size)
    requires width >= 0.0 && height >= 0.0
    ensures r.width <= width && r.height <= height
    ensures ResizeRequested(maxWidth) ==> r.width <= Px(maxWidth)
    ensures !ResizeRequested(maxWidth) || width <= Px(maxWidth) ==> r == Size(width, height)
  {
    if ResizeRequested(maxWidth) then GeminiService.ResizeDimensions(width, height, Px(maxWidth))
    else Size(width, height)
  }

  /** `CanvasSize` case by case, as `handleDownload` computes it. */
  lemma CanvasSizeByCases(width: real, height: real, maxWidth: Option<nat>)
    requires width >= 0.0 && height >= 0.0
    ensures ResizeRequested(maxWidth) && width > Px(maxWidth) ==>
              CanvasSize(width, height, maxWidth) == Size(Px(maxWidth), height * (Px(maxWidth) / width))
    ensures !(ResizeRequested(maxWidth) && width > Px(maxWidth)) ==>
              CanvasSize(width, height, maxWidth) == Size(width, height)
  {
    if ResizeRequested(maxWidth) {
      var m := Px(maxWidth);
      assert CanvasSize(width, height, maxWidth) == GeminiService.ResizeDimensions(width, height, m);
    }
  }

  /** The canvas keeps the image's aspect ratio. */
  lemma CanvasKeepsAspect(width: real, height: real, maxWidth: Option<nat>)
    requires width >= 0.0 && height >= 0.0
    ensures CanvasSize(width, height, maxWidth).width * height == CanvasSize(width, height, maxWidth).height * width
  {
    if ResizeRequested(maxWidth) {
      var r := GeminiService.ResizeDimensions(width, height, Px(maxWidth));
      assert r.width * height == r.height * width;
    }
  }

  // ---------------------------------------------------------------------
  // File names

  const FileStem := "professional-headshot"
  const FullResId := "full-res"

  function Extension(format: Format): (e: string)
    ensures |e| == 3
  {
    if format == Jpeg then "jpg" else "png"
  }

  /** The name of a direct download: the id is always included. */
  function DirectFileName(id: string): (name: string)
    ensures FileStem + "-" <= name
    ensures name[|FileStem| + 1..] == id + ".jpg"
  {
    FileStem + "-" + id + ".jpg"
  }

  /** The name of a canvas export: the id is included unless it is
      "full-res"; the extension follows the format. */
  function CanvasFileName(format: Format, id: string): (name: string)
    ensures FileStem <= name
    ensures name[|name| - 4..] == "." + Extension(format)
    ensures id == FullResId <==> |name| == |FileStem| + 4
    ensures id != FullResId ==> name[|FileStem|..] == "-" + id + "." + Extension(format)
  {
    var suffix := if id == FullResId then "" else "-" + id;
    FileStem + suffix + "." + Extension(format)
  }

  /** Different format or id, different canvas file name. */
  lemma CanvasFileNameInjective(f1: Format, id1: string, f2: Format, id2: string)
    requires CanvasFileName(f1, id1) == CanvasFileName(f2, id2)
    ensures f1 == f2 && id1 == id2
  {
    var name := CanvasFileName(f1, id1);
    assert Extension(f1) == name[|name| - 3..] == Extension(f2);
    if id1 != FullResId && id2 != FullResId {
      var tail := name[|FileStem|..];
      IdOfSuffix(id1, Extension(f1));
      IdOfSuffix(id2, Extension(f2));
      assert id1 == tail[1..|id1| + 1];
      assert id2 == tail[1..|id2| + 1];
    }
  }

  lemma IdOfSuffix(id: string, ext: string)
    ensures |"-" + id + "." + ext| == |id| + 2 + |ext|
    ensures ("-" + id + "." + ext)[1..|id| + 1] == id
  {
  }

  /** The two paths name a jpeg alike, except for "full-res", which only the
      direct path spells out. */
  lemma DirectAndCanvasNames(id: string)
    ensures id != FullResId ==> DirectFileName(id) == CanvasFileName(Jpeg, id)
    ensures DirectFileName(FullResId) != CanvasFileName(Jpeg, FullResId)
  {
    assert |DirectFileName(FullResId)| == |FileStem| + 1 + |FullResId| + 4;
  }

  // ---------------------------------------------------------------------
  // Social platforms

  datatype Platform = Platform(name: string, size: nat, id: string)

  const SocialPlatforms: seq<Platform> := [
    Platform("LinkedIn", 400, "linkedin"),
    Platform("Facebook", 1080, "facebook"),
    Platform("Instagram", 1080, "instagram"),
    Platform("Twitter / X", 400, "twitter"),
    Platform("TikTok", 200, "tiktok"),
    Platform("CV / Resume", 600, "cv"),
    Platform("Ebook Author", 1200, "ebook")
  ]

  /** A platform button always exports a jpeg through the canvas, at most
      as wide as the platform's size, named after the platform. */
  lemma PlatformExports(i: nat, imageUrl: string, percent: int, width: real, height: real)
    requires i < |SocialPlatforms| && width >= 0.0 && height >= 0.0
    ensures !IsDirectDownload(Jpeg, imageUrl, Some(SocialPlatforms[i].size), percent)
    ensures CanvasSize(width, height, Some(SocialPlatforms[i].size)).width <= SocialPlatforms[i].size as real
    ensures CanvasFileName(Jpeg, SocialPlatforms[i].id) == FileStem + "-" + SocialPlatforms[i].id + ".jpg"
  {
    assert SocialPlatforms[i].size > 0;
    assert SocialPlatforms[i].id != FullResId;
  }

  // ---------------------------------------------------------------------
  // The panel

  /** What a download hands to the browser. */
  datatype Download =
    | Direct(fileName: string, href: string)
    | Canvas(fileName: string, width: real, height: real, mimeType: string, quality: real)

  function MimeType(format: Format): string {
    if format == Jpeg then "image/jpeg" else "image/png"
  }

  class DownloadPanel {
    const imageUrl: string
    /** The id of the action under way, if any. */
    var processingId: Option<string>
    var qualityPercent: int

    ghost predicate Valid()
      reads this
    {
      SliderValue(qualityPercent)
    }

    constructor (imageUrl: string)
      ensures Valid() && this.imageUrl == imageUrl
      ensures processingId == None && qualityPercent == InitialQualityPercent
    {
      this.imageUrl := imageUrl;
      processingId, qualityPercent := None, InitialQualityPercent;
    }

    /** Every action button is disabled while an action is under way. */
    function ButtonsDisabled(): (b: bool)
      reads this
      ensures b <==> processingId.Some?
    {
      processingId.Some?
    }

    method SetQuality(percent: int)
      requires Valid() && SliderValue(percent)
      modifies this
      ensures Valid() && qualityPercent == percent && processingId == old(processingId)
    {
      qualityPercent := percent;
    }

    /** `handleDownload` up to the image load. The direct path finishes at
        once and clears the flag; otherwise the panel stays busy with `id`.
        A disabled button cannot start a download. */
    method StartDownload(format: Format, id: string, maxWidth: Option<nat>) returns (d: Option<Download>)
      requires Valid() && !ButtonsDisabled()
      modifies this
      ensures Valid() && qualityPercent == old(qualityPercent)
      ensures IsDirectDownload(format, imageUrl, maxWidth, qualityPercent) ==>
                d == Some(Direct(DirectFileName(id), imageUrl)) && processingId == None
      ensures !IsDirectDownload(format, imageUrl, maxWidth, qualityPercent) ==>
                d == None && processingId == Some(id) && ButtonsDisabled()
    {
      processingId := Some(id);
      if format == Jpeg && JpegUrlPrefix <= imageUrl && !ResizeRequested(maxWidth) && Quality(qualityPercent) > 0.95 {
        d := Some(Direct(DirectFileName(id), imageUrl));
        processingId := None;
        return;
      }
      d := None;
    }

    /** The rest of `handleDownload`, once the image has loaded (`Some`
        with its size) or failed to (`None`). Every exit clears the flag. */
    method FinishDownload(format: Format, id: string, maxWidth: Option<nat>, loaded: Option<Size>)
      returns (d: Option<Download>)
      requires Valid() && processingId == Some(id)
      requires loaded.Some? ==> loaded.value.width >= 0.0 && loaded.value.height >= 0.0
      modifies this
      ensures Valid() && qualityPercent == old(qualityPercent) && processingId == None
      ensures loaded.None? ==> d == None
      ensures loaded.Some? ==>
                var size := CanvasSize(loaded.value.width, loaded.value.height, maxWidth);
                d == Some(Canvas(CanvasFileName(format, id), size.width, size.height, MimeType(format), ExportQuality(format, qualityPercent)))
    {
      if loaded.None? {
        processingId := None;
        return None;
      }
      var width := loaded.value.width;
      var height := loaded.value.height;
      if ResizeRequested(maxWidth) && width > Px(maxWidth) {
        var ratio := Px(maxWidth) / width;
        width := Px(maxWidth);
        height := height * ratio;
      }
      CanvasSizeByCases(loaded.value.width, loaded.value.height, maxWidth);
      assert Size(width, height) == CanvasSize(loaded.value.width, loaded.value.height, maxWidth);
      var exportQuality := if format == Jpeg then Quality(qualityPercent) else 1.0;
      var ext := if format == Jpeg then "jpg" else "png";
      var suffix := if id == FullResId then "" else "-" + id;
      assert FileStem + suffix + "." + ext == CanvasFileName(format, id);
      d := Some(Canvas(FileStem + suffix + "." + ext, width, height, MimeType(format), exportQuality));
      processingId := None;
    }
  }
}
