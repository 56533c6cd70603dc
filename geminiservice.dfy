/** The parts of services/geminiService.ts that are not network I/O: the
    resize-dimension rule, the data-URL split shared by the three API entry
    points, the API-key guard and the unwrapping of a generated response. */
module GeminiService {
  import opened Types

  /** The width and height of an image, in pixels. */
  datatype Size = Size(width: real, height: real)

  /** The size `resizeImage` draws at: an image wider than `maxWidth` is
      scaled to that width with its aspect ratio kept; any other image keeps
      its size. */
  function ResizeDimensions(width: real, height: real, maxWidth: real): (r: Size)
    requires width >= 0.0 && height >= 0.0 && maxWidth > 0.0
    ensures r.width <= width && r.height <= height && r.width <= maxWidth
    ensures r.width * height == r.height * width
    ensures width <= maxWidth ==> r == Size(width, height)
    ensures width > maxWidth ==> r.width == maxWidth
  {
    if width > maxWidth then
      var scale := maxWidth / width;
      Size(maxWidth, height * scale)
    else
      Size(width, height)
  }

  // ---------------------------------------------------------------------
  // Data URLs

  /** The characters of `[a-zA-Z+]`. */
  predicate IsMimeChar(c: char) {
    ('a' <= c <= 'z') || ('A' <= c <= 'Z') || c == '+'
  }

  /** The characters the regular-expression `.` does not match. */
  predicate IsLineTerminator(c: char) {
    c == '\n' || c == '\r' || c == '\U{2028}' || c == '\U{2029}'
  }

  predicate AllMimeChars(s: string) {
    forall i :: 0 <= i < |s| ==> IsMimeChar(s[i])
  }

  predicate NoLineTerminator(s: string) {
    forall i :: 0 <= i < |s| ==> !IsLineTerminator(s[i])
  }

  /** The length of the longest prefix of `s` made of `[a-zA-Z+]` characters. */
  function MimeRun(s: string): (n: nat)
    ensures n <= |s| && AllMimeChars(s[..n])
    ensures n < |s| ==> !IsMimeChar(s[n])
  {
    if |s| > 0 && IsMimeChar(s[0]) then
      var n := 1 + MimeRun(s[1..]);
      assert s[..n] == [s[0]] + s[1..][..n - 1];
      n
    else 0
  }

  /** `s.match(/^data:(image\/[a-zA-Z+]+);base64,(.+)$/)`: the two capture
      groups when the whole string matches. The `[a-zA-Z+]+` run cannot be
      followed by `;` unless it is maximal, so the match, when there is one,
      is unique: the MIME type ends where the run after `data:image/` ends. */
  function MatchDataUrl(s: string): (m: Option<(string, string)>)
    ensures m.Some? ==> s == "data:" + m.value.0 + ";base64," + m.value.1
    ensures m.Some? ==> |m.value.0| > 6 && m.value.0[..6] == "image/" && AllMimeChars(m.value.0[6..])
    ensures m.Some? ==> |m.value.1| > 0 && NoLineTerminator(m.value.1)
  {
    if !("data:image/" <= s) then None
    else
      var j := 11 + MimeRun(s[11..]);
      if j > 11 && ";base64," <= s[j..] && |s| > j + 8 && NoLineTerminator(s[j + 8..]) then
        Reassemble(s, j);
        Some((s[5..j], s[j + 8..]))
      else None
  }

  /** Cutting a matched data URL at the end of its MIME type and putting it
      back together gives the URL again. */
  lemma Reassemble(s: string, j: nat)
    requires "data:image/" <= s && 11 < j && j + 8 < |s|
    requires AllMimeChars(s[11..][..j - 11]) && ";base64," <= s[j..]
    ensures s == "data:" + s[5..j] + ";base64," + s[j + 8..]
    ensures s[5..j][..6] == "image/" && AllMimeChars(s[5..j][6..])
  {
    assert s[5..j][6..] == s[11..][..j - 11];
    assert s[5..j][..6] == s[..11][5..] == "image/";
    assert s[j..j + 8] == ";base64,";
    assert s == s[..5] + s[5..j] + s[j..j + 8] + s[j + 8..];
  }

  /** The `[a-zA-Z+]` run of a subtype followed by `;` is exactly that subtype. */
  lemma {:induction false} MimeRunOfSubtype(sub: string, rest: string)
    requires AllMimeChars(sub) && |rest| > 0 && rest[0] == ';'
    ensures MimeRun(sub + rest) == |sub|
  {
    if |sub| > 0 {
      assert (sub + rest)[1..] == sub[1..] + rest;
      MimeRunOfSubtype(sub[1..], rest);
    }
  }

  /** A string of the regular expression's outline matches it exactly when
      its payload is non-empty and has no line break, and then the groups are
      the parts it was built from. */
  lemma MatchDataUrlComplete(sub: string, payload: string)
    requires |sub| > 0 && AllMimeChars(sub)
    ensures MatchDataUrl("data:image/" + sub + ";base64," + payload)
              == if |payload| > 0 && NoLineTerminator(payload) then Some(("image/" + sub, payload)) else None
  {
    var s := "data:image/" + sub + ";base64," + payload;
    assert s[11..] == sub + (";base64," + payload);
    MimeRunOfSubtype(sub, ";base64," + payload);
    var j := 11 + |sub|;
    assert s[j..] == ";base64," + payload;
    assert s[j + 8..] == payload;
    assert s[5..j] == "image/" + sub;
  }

  /** The prefixes `/^data:image\/(png|jpeg|jpg|webp);base64,/` removes. */
  const KnownPrefixes: seq<string> := [
    "data:image/png;base64,",
    "data:image/jpeg;base64,",
    "data:image/jpg;base64,",
    "data:image/webp;base64,"
  ]

  predicate HasKnownPrefix(s: string) {
    exists i :: 0 <= i < |KnownPrefixes| && KnownPrefixes[i] <= s
  }

  /** `s.replace(/^data:image\/(png|jpeg|jpg|webp);base64,/, '')`. */
  function StripKnownPrefix(s: string): (r: string)
    ensures HasKnownPrefix(s) ==> exists i :: 0 <= i < |KnownPrefixes| && s == KnownPrefixes[i] + r
    ensures !HasKnownPrefix(s) ==> r == s
  {
    if KnownPrefixes[0] <= s then
      assert s == KnownPrefixes[0] + s[|KnownPrefixes[0]|..];
      s[|KnownPrefixes[0]|..]
    else if KnownPrefixes[1] <= s then
      assert s == KnownPrefixes[1] + s[|KnownPrefixes[1]|..];
      s[|KnownPrefixes[1]|..]
    else if KnownPrefixes[2] <= s then
      assert s == KnownPrefixes[2] + s[|KnownPrefixes[2]|..];
      s[|KnownPrefixes[2]|..]
    else if KnownPrefixes[3] <= s then
      assert s == KnownPrefixes[3] + s[|KnownPrefixes[3]|..];
      s[|KnownPrefixes[3]|..]
    else s
  }

  /** The image part of a request: a MIME type and the bare base64 payload. */
  datatype InlineImage = InlineImage(mimeType: string, data: string)

  const DefaultMimeType := "image/jpeg"

  /** The split all three entry points perform: the capture groups when the
      data URL matches, otherwise `image/jpeg` and the input with a known
      prefix removed. */
  function SplitDataUrl(s: string): (r: InlineImage)
    ensures MatchDataUrl(s).Some? ==> "data:" + r.mimeType + ";base64," + r.data == s
    ensures MatchDataUrl(s).None? ==> r.mimeType == DefaultMimeType && r.data == StripKnownPrefix(s)
  {
    match MatchDataUrl(s)
    case Some((mime, payload)) => InlineImage(mime, payload)
    case None => InlineImage(DefaultMimeType, StripKnownPrefix(s))
  }

  /** Every non-empty payload behind the JPEG prefix splits back into
      `image/jpeg` and that payload: through the regular expression when it
      has no line break, through the prefix strip when it has one. */
  lemma SplitJpegDataUrl(payload: string)
    requires |payload| > 0
    ensures SplitDataUrl(JpegDataPrefix + payload) == InlineImage("image/jpeg", payload)
  {
    JpegUrlOutline(payload);
    if !NoLineTerminator(payload) {
      JpegPrefixStripped(payload);
    }
  }

  lemma JpegUrlOutline(payload: string)
    requires |payload| > 0
    ensures MatchDataUrl(JpegDataPrefix + payload)
              == if NoLineTerminator(payload) then Some(("image/jpeg", payload)) else None
  {
    assert JpegDataPrefix + payload == "data:image/" + "jpeg" + ";base64," + payload;
    assert AllMimeChars("jpeg");
    MatchDataUrlComplete("jpeg", payload);
    assert "image/" + "jpeg" == "image/jpeg";
  }

  lemma JpegPrefixStripped(payload: string)
    ensures StripKnownPrefix(JpegDataPrefix + payload) == payload
  {
    var s := JpegDataPrefix + payload;
    assert !(KnownPrefixes[0] <= s) by { assert s[11] != KnownPrefixes[0][11]; }
    assert KnownPrefixes[1] <= s;
    assert s[|KnownPrefixes[1]|..] == payload;
  }

  // ---------------------------------------------------------------------
  // API-key guard of the three entry points

  const HeadshotKeyError := "API Key is missing. Please check your Vercel settings."
  const KeyError := "API Key is missing."

  /** `generateHeadshot` up to the request: refuse a missing key, then split
      the resized image. */
  function HeadshotImagePart(apiKey: string, optimizedImage: string): (r: Result<InlineImage, string>)
    ensures r.Err? <==> apiKey == ""
    ensures r.Err? ==> r.error == HeadshotKeyError
    ensures r.Ok? ==> r.value == SplitDataUrl(optimizedImage)
  {
    if apiKey == "" then Err(HeadshotKeyError) else Ok(SplitDataUrl(optimizedImage))
  }

  /** `generateVeoPrompt` up to the request. */
  function VeoPromptImagePart(apiKey: string, image: string): (r: Result<InlineImage, string>)
    ensures r.Err? <==> apiKey == ""
    ensures r.Err? ==> r.error == KeyError
    ensures r.Ok? ==> r.value == SplitDataUrl(image)
  {
    if apiKey == "" then Err(KeyError) else Ok(SplitDataUrl(image))
  }

  /** `generateHeadshotVideo` up to the request. Its guard and split repeat
      those of `generateVeoPrompt` word for word, so it is that function. */
  function VideoImagePart(apiKey: string, image: string): (r: Result<InlineImage, string>)
    ensures r.Err? <==> apiKey == ""
    ensures r.Err? ==> r.error == KeyError
    ensures r.Ok? ==> r.value == SplitDataUrl(image)
  {
    VeoPromptImagePart(apiKey, image)
  }

  // ---------------------------------------------------------------------
  // Response unwrapping

  datatype InlineData = InlineData(mimeType: Option<string>, data: Option<string>)

  /** One part of the first candidate's content. */
  datatype Part = Part(inlineData: Option<InlineData>, text: Option<string>)

  /** `part.inlineData && part.inlineData.data` */
  predicate CarriesImage(p: Part) {
    p.inlineData.Some? && Present(p.inlineData.value.data)
  }

  /** `part.text` */
  predicate CarriesText(p: Part) {
    Present(p.text)
  }

  /** The index of the first part that carries image data, or `|ps|`. */
  function FirstImagePart(ps: seq<Part>): (k: nat)
    ensures k <= |ps|
    ensures forall j :: 0 <= j < k ==> !CarriesImage(ps[j])
    ensures k < |ps| ==> CarriesImage(ps[k])
  {
    if |ps| == 0 || CarriesImage(ps[0]) then 0 else 1 + FirstImagePart(ps[1..])
  }

  /** The index of the first part that carries text, or `|ps|`. */
  function FirstTextPart(ps: seq<Part>): (k: nat)
    ensures k <= |ps|
    ensures forall j :: 0 <= j < k ==> !CarriesText(ps[j])
    ensures k < |ps| ==> CarriesText(ps[k])
  {
    if |ps| == 0 || CarriesText(ps[0]) then 0 else 1 + FirstTextPart(ps[1..])
  }

  const JpegDataPrefix := "data:image/jpeg;base64,"
  const NoImageError := "No image generated in response. The model may have blocked the request."

  /** What `generateHeadshot` returns or throws for the parts of a response:
      the first image part, labelled JPEG whatever its MIME type; failing
      that, the first text part as the error; failing that, a fixed error. */
  function Unwrapped(parts: Option<seq<Part>>): Result<string, string> {
    match parts
    case None => Err(NoImageError)
    case Some(ps) =>
      var i := FirstImagePart(ps);
      if i < |ps| then Ok(JpegDataPrefix + ps[i].inlineData.value.data.value)
      else
        var t := FirstTextPart(ps);
        if t < |ps| then Err(ps[t].text.value) else Err(NoImageError)
  }

  /** The two loops over `parts`: the first returns on an image part, the
      second throws on a text part. */
  method UnwrapResponse(parts: Option<seq<Part>>) returns (r: Result<string, string>)
    ensures r == Unwrapped(parts)
  {
    if parts.Some? {
      var ps := parts.value;
      for i := 0 to |ps|
        invariant forall j :: 0 <= j < i ==> !CarriesImage(ps[j])
      {
        if ps[i].inlineData.Some? && Present(ps[i].inlineData.value.data) {
          return Ok(JpegDataPrefix + ps[i].inlineData.value.data.value);
        }
      }
      for i := 0 to |ps|
        invariant forall j :: 0 <= j < i ==> !CarriesText(ps[j])
      {
        if Present(ps[i].text) {
          return Err(ps[i].text.value);
        }
      }
    }
    return Err(NoImageError);
  }

  /** An image part wins over every part before it that carries only text,
      and its data comes back behind the JPEG prefix. */
  lemma ImagePartWins(ps: seq<Part>, i: nat)
    requires i < |ps| && CarriesImage(ps[i])
    requires forall j :: 0 <= j < i ==> !CarriesImage(ps[j])
    ensures Unwrapped(Some(ps)) == Ok(JpegDataPrefix + ps[i].inlineData.value.data.value)
  {
  }

  /** Without any image part, the first text part becomes the error, and
      with neither the fixed error is reported. */
  lemma TextPartBecomesError(ps: seq<Part>)
    requires forall j :: 0 <= j < |ps| ==> !CarriesImage(ps[j])
    ensures (exists j :: 0 <= j < |ps| && CarriesText(ps[j])) ==> Unwrapped(Some(ps)) == Err(ps[FirstTextPart(ps)].text.value)
    ensures (forall j :: 0 <= j < |ps| ==> !CarriesText(ps[j])) ==> Unwrapped(Some(ps)) == Err(NoImageError)
  {
    assert FirstImagePart(ps) == |ps|;
  }

  /** The unwrapped image is a data URL that the split turns back into
      `image/jpeg` and the part's data. */
  lemma UnwrapThenSplit(parts: Option<seq<Part>>)
    requires Unwrapped(parts).Ok?
    ensures var ps := parts.value;
            SplitDataUrl(Unwrapped(parts).value)
              == InlineImage("image/jpeg", ps[FirstImagePart(ps)].inlineData.value.data.value)
  {
    var ps := parts.value;
    SplitJpegDataUrl(ps[FirstImagePart(ps)].inlineData.value.data.value);
  }

  /** `generateHeadshot` as a whole, for a given key and response. A missing
      key is reported before anything else. `failure` is a rejection raised
      on the way to the response: the image failing to load or to get a
      canvas while resizing, or the request itself failing. It carries the
      rejection's message, "" for a rejection without one (the image's
      error event). Otherwise the response is unwrapped. */
  function HeadshotOutcome(apiKey: string, failure: Option<string>, response: Option<seq<Part>>): (r: Result<string, string>)
    ensures apiKey == "" ==> r == Err(HeadshotKeyError)
    ensures apiKey != "" && failure.Some? ==> r == Err(failure.value)
    ensures apiKey != "" && failure.None? ==> r == Unwrapped(response)
    ensures r.Ok? ==> failure.None? && JpegDataPrefix <= r.value && |r.value| > |JpegDataPrefix|
  {
    if apiKey == "" then Err(HeadshotKeyError)
    else if failure.Some? then Err(failure.value)
    else Unwrapped(response)
  }
}
