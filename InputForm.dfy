/** The input form: the data-URL reader behind the image upload, the 4 MiB
    size gate, the hashtag-count slider and the enabling of the two action
    buttons. */
module InputForm {
  import opened Types
  import opened JsString

  // ---------------------------------------------------- reading a data URL

  /** How the promise returned by `fileToBase64` ends: resolved with the MIME
      type and payload, rejected, or never settled (when the `onload` callback
      throws, nobody calls `resolve` or `reject`). */
  datatype FileRead = Resolved(mimeType: string, data: string) | Rejected(message: string) | Unsettled

  const InvalidFileFormat := "Invalid file format"

  /** The `onload` callback on the reader's result `result`, a data URL
      `data:<mime>;base64,<payload>` as in section 3 of RFC 2397:
      `result.split(',', 2)` gives the header and the payload (`""` standing
      for a missing one, both being falsy). */
  function ParseDataUrl(result: string): (r: FileRead)
    ensures r.Resolved? ==> r.data != [] && ',' !in r.data
    ensures r.Resolved? ==> ':' !in r.mimeType && ';' !in r.mimeType
    ensures r.Rejected? ==> r.message == InvalidFileFormat
  {
    var parts := Split(result, ',');
    ParseParts(parts[0], if |parts| >= 2 then parts[1] else "")
  }

  /** The rest of the callback: a missing or empty part rejects; the MIME
      type is what lies between the header's first ':' and the next ';'. A
      header without ':' makes `split(':')[1]` undefined and the callback
      throw, so the promise never settles. */
  function ParseParts(mimeInfo: string, data: string): (r: FileRead)
    ensures r.Resolved? ==> r.data == data != []
    ensures r.Resolved? ==> ':' !in r.mimeType && ';' !in r.mimeType
    ensures r.Rejected? <==> mimeInfo == [] || data == []
    ensures r.Rejected? ==> r.message == InvalidFileFormat
  {
    if mimeInfo == "" || data == "" then Rejected(InvalidFileFormat)
    else
      var fields := Split(mimeInfo, ':');
      if |fields| < 2 then Unsettled
      else Resolved(Split(fields[1], ';')[0], data)
  }

  /** `fileToBase64`: a failed read rejects with the reader's error; a
      successful one is parsed. */
  function FileToBase64(read: Outcome<string>): (r: FileRead)
    ensures read.Failure? ==> r == Rejected(read.message)
    ensures read.Success? ==> r == ParseDataUrl(read.value)
  {
    match read
    case Failure(message) => Rejected(message)
    case Success(result) => ParseDataUrl(result)
  }

  /** The first two pieces of `split(sep)`: up to the first separator, and
      from there up to the next one. */
  lemma SplitFirstTwo(s: string, sep: char)
    ensures Split(s, sep)[0] == s[..IndexOf(s, sep)]
    ensures |Split(s, sep)| >= 2 <==> IndexOf(s, sep) < |s|
    ensures IndexOf(s, sep) < |s| ==>
              var rest := s[IndexOf(s, sep) + 1..]; Split(s, sep)[1] == rest[..IndexOf(rest, sep)]
  {
    var i := IndexOf(s, sep);
    if i < |s| {
      var rest := s[i + 1..];
      assert Split(rest, sep)[0] == rest[..IndexOf(rest, sep)];
    } else {
      assert s[..i] == s;
    }
  }

  /** A result with one comma between a comma-free header and payload is
      parsed from exactly those two parts. */
  lemma ParseDataUrlParts(h: string, d: string)
    requires ',' !in h && ',' !in d
    ensures ParseDataUrl(h + [','] + d) == ParseParts(h, d)
  {
    SplitAtFirst(h, d, ',');
    SplitWithout(d, ',');
  }

  lemma ParsePartsBase64(m: string, d: string)
    requires ':' !in m && ';' !in m && d != []
    ensures ParseParts("data:" + m + ";base64", d) == Resolved(m, d)
  {
    var tail := m + ";base64";
    assert ':' !in tail;
    assert "data:" + m + ";base64" == "data" + [':'] + tail;
    SplitAtFirst("data", tail, ':');
    SplitWithout(tail, ':');
    assert tail == m + [';'] + "base64";
    SplitAtFirst(m, "base64", ';');
  }

  /** A well-formed base64 data URL is read back into its MIME type and payload. */
  lemma ParseDataUrlRoundTrip(m: string, d: string)
    requires ':' !in m && ';' !in m && ',' !in m
    requires d != [] && ',' !in d
    ensures ParseDataUrl("data:" + m + ";base64," + d) == Resolved(m, d)
  {
    var header := "data:" + m + ";base64";
    assert header == "data:" + (m + ";base64");
    assert ',' !in header;
    assert "data:" + m + ";base64," + d == header + [','] + d;
    ParseDataUrlParts(header, d);
    ParsePartsBase64(m, d);
  }

  /** The header is the text before the first comma and the payload the
      text from there up to the next comma or the end. */
  lemma ParseDataUrlFields(result: string)
    ensures var i := IndexOf(result, ',');
            var rest := if i < |result| then result[i + 1..] else "";
            ParseDataUrl(result) == ParseParts(result[..i], rest[..IndexOf(rest, ',')])
  {
    SplitFirstTwo(result, ',');
  }

  /** The reader rejects exactly when the header is empty, there is no
      comma, or nothing stands between the first comma and the next one or
      the end. */
  lemma ParseDataUrlRejects(result: string)
    ensures ParseDataUrl(result).Rejected? <==>
              var i := IndexOf(result, ',');
              i == 0 || i + 1 >= |result| || result[i + 1] == ','
  {
    ParseDataUrlFields(result);
    var i := IndexOf(result, ',');
    if i + 1 < |result| {
      var rest := result[i + 1..];
      assert rest[0] == result[i + 1];
    }
  }

  /** Only the text up to the second comma is read: anything after it is dropped. */
  lemma ParseDataUrlDropsExtra(h: string, d: string, extra: string)
    requires ',' !in h && ',' !in d
    ensures ParseDataUrl(h + [','] + d + [','] + extra) == ParseDataUrl(h + [','] + d)
  {
    assert h + [','] + d + [','] + extra == h + [','] + (d + [','] + extra);
    SplitAtFirst(h, d + [','] + extra, ',');
    SplitAtFirst(d, extra, ',');
    ParseDataUrlParts(h, d);
  }

  /** With a header and a payload present, the MIME type is the text after
      the header's first ':' up to the next ':' or ';' (or the header's end);
      a header without ':' leaves the promise unsettled. */
  lemma ParseDataUrlMime(h: string, d: string)
    requires h != [] && ',' !in h && d != [] && ',' !in d
    ensures ':' !in h ==> ParseDataUrl(h + [','] + d) == Unsettled
    ensures ':' in h ==>
              var after := h[IndexOf(h, ':') + 1..];
              var r := ParseDataUrl(h + [','] + d);
              r.Resolved? && r.data == d && StartsWith(after, r.mimeType)
              && (|r.mimeType| == |after| || after[|r.mimeType|] == ':' || after[|r.mimeType|] == ';')
  {
    ParseDataUrlParts(h, d);
    if ':' in h {
      ParsePartsMime(h, d);
    } else {
      ParsePartsNoColon(h, d);
    }
  }

  lemma ParsePartsNoColon(h: string, d: string)
    requires h != [] && d != [] && ':' !in h
    ensures ParseParts(h, d) == Unsettled
  {
    SplitWithout(h, ':');
  }

  lemma ParsePartsMime(h: string, d: string)
    requires h != [] && d != [] && ':' in h
    ensures var after := h[IndexOf(h, ':') + 1..];
            var r := ParseParts(h, d);
            r.Resolved? && r.data == d && StartsWith(after, r.mimeType)
            && (|r.mimeType| == |after| || after[|r.mimeType|] == ':' || after[|r.mimeType|] == ';')
  {
    SplitFirstTwo(h, ':');
    var after := h[IndexOf(h, ':') + 1..];
    var field := Split(h, ':')[1];
    assert field == after[..IndexOf(after, ':')];
    SplitFirstTwo(field, ';');
    var m := Split(field, ';')[0];
    assert m == field[..IndexOf(field, ';')];
    assert after[..|m|] == m;
  }

  // ------------------------------------------------------- the image input

  /** The largest accepted upload, in bytes. */
  const MaxImageBytes := 4 * 1024 * 1024

  /** The size gate of `handleImageChange`: only strictly larger files are refused. */
  predicate TooLarge(size: nat) {
    size > MaxImageBytes
  }

  const TooLargeAlert := "File is too large. Please select an image under 4MB."
  const ProcessingAlert := "Failed to process image. Please try another file."

  /** What choosing a file leads to: nothing (no file, or a read that never
      settles), an alert, or a new image for the form. */
  datatype ImageChange = NoChange | Alert(message: string) | SetImage(image: Image)

  /** `handleImageChange` for a chosen file of `size` bytes whose read ends
      with `read`; `preview` is the object URL the browser creates for it. */
  function HandleImageChange(size: Option<nat>, read: Outcome<string>, preview: string): (r: ImageChange)
    ensures size.None? ==> r == NoChange
    ensures size.Some? && TooLarge(size.value) ==> r == Alert(TooLargeAlert)
    ensures r.SetImage? <==> size.Some? && !TooLarge(size.value) && FileToBase64(read).Resolved?
    ensures r.SetImage? ==> r.image == Image(FileToBase64(read).mimeType, FileToBase64(read).data, preview)
    ensures r == Alert(ProcessingAlert) <==> size.Some? && !TooLarge(size.value) && FileToBase64(read).Rejected?
    ensures size.Some? && !TooLarge(size.value) && FileToBase64(read).Unsettled? ==> r == NoChange
  {
    if size.None? then NoChange
    else if TooLarge(size.value) then Alert(TooLargeAlert)
    else
      match FileToBase64(read)
      case Resolved(mimeType, data) => SetImage(Image(mimeType, data, preview))
      case Rejected(_) => Alert(ProcessingAlert)
      case Unsettled => NoChange
  }

  /** A file of exactly 4 MiB passes the gate; one byte more does not. */
  lemma SizeGateBoundary()
    ensures !TooLarge(4194304) && TooLarge(4194305)
  {
  }

  // ------------------------------------------------------------ the slider

  /** The range input's value: the browser keeps it within `min`..`max`. */
  function SliderValue(requested: int): (n: int)
    ensures 0 <= n <= 30
    ensures 0 <= requested <= 30 ==> n == requested
    ensures requested < 0 ==> n == 0
    ensures requested > 30 ==> n == 30
  {
    if requested < 0 then 0 else if requested > 30 then 30 else requested
  }

  // ----------------------------------------------------------- the buttons

  predicate IsLoading(isCaptionLoading: bool, isSeoLoading: bool) {
    isCaptionLoading || isSeoLoading
  }

  /** "Generate SEO" is disabled while anything loads or the idea is blank
      (`!postIdea.trim()`): all white space. */
  predicate GenerateSeoDisabled(isCaptionLoading: bool, isSeoLoading: bool, postIdea: string): (r: bool)
    ensures r <==> isCaptionLoading || isSeoLoading || IsBlank(postIdea)
  {
    IsLoading(isCaptionLoading, isSeoLoading) || Trim(postIdea) == ""
  }

  /** "Generate Caption" is disabled while anything loads, or when the idea
      is blank and there is no image. */
  predicate GenerateCaptionDisabled(isCaptionLoading: bool, isSeoLoading: bool, postIdea: string, image: Option<Image>): (r: bool)
    ensures r <==> isCaptionLoading || isSeoLoading || (IsBlank(postIdea) && image.None?)
  {
    IsLoading(isCaptionLoading, isSeoLoading) || (Trim(postIdea) == "" && image.None?)
  }

  /** An image alone enables "Generate Caption" but never "Generate SEO". */
  lemma ImageOnlyEnablesCaption(postIdea: string, image: Image)
    requires IsBlank(postIdea)
    ensures !GenerateCaptionDisabled(false, false, postIdea, Some(image))
    ensures GenerateSeoDisabled(false, false, postIdea)
  {
  }
}
