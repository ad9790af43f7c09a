/** The local post-processing around the three provider calls: the
    markdown-fence cleanup of generated page code, the data URL built from a
    generated image, and the null results that stand for every failure.
    The provider calls themselves are not modelled: their outcomes arrive
    as values of `TextResponse` and `ImageResponse`. */
module GeminiService {
  import opened Types
  import opened JsText

  /** What a text-generation call gives back: it threw, or it produced a
      response whose `text` may be undefined. */
  datatype TextResponse = Threw | Responded(text: Option<string>)

  /** The image-generation response, as deep as the optional chain
      `response.generatedImages?.[0]?.image?.imageBytes` looks into it. */
  datatype ImageData = ImageData(imageBytes: Option<string>)
  datatype GeneratedImage = GeneratedImage(image: Option<ImageData>)
  datatype ImageResponse = ImageThrew | ImageResponded(generatedImages: Option<seq<GeneratedImage>>)

  const Fence := "```"
  const HtmlFence := "```html"
  const DataUrlPrefix := "data:image/jpeg;base64,"

  /** `replace(/^```html\s*\/, '')`: an opening "```html" and the white
      space after it. */
  function DropHtmlFence(s: string): (r: string)
    ensures EndsWith(s, r)
    ensures !StartsWith(s, HtmlFence) ==> r == s
    ensures StartsWith(s, HtmlFence) ==> |r| <= |s| - |HtmlFence| && IsBlank(s[|HtmlFence|..|s| - |r|])
    ensures StartsWith(s, HtmlFence) ==> r == [] || !IsSpace(r[0])
  {
    if StartsWith(s, HtmlFence) then SkipSpace(s[|HtmlFence|..]) else s
  }

  /** `replace(/^```\s*\/, '')`: an opening "```" and the white space after it. */
  function DropOpeningFence(s: string): (r: string)
    ensures EndsWith(s, r)
    ensures !StartsWith(s, Fence) ==> r == s
    ensures StartsWith(s, Fence) ==> |r| <= |s| - |Fence| && IsBlank(s[|Fence|..|s| - |r|])
    ensures StartsWith(s, Fence) ==> r == [] || !IsSpace(r[0])
  {
    if StartsWith(s, Fence) then SkipSpace(s[|Fence|..]) else s
  }

  /** `replace(/```$/, '')`: "```" only at the very end of the text. */
  function DropClosingFence(s: string): (r: string)
    ensures r == s || r + Fence == s
  {
    if EndsWith(s, Fence) then s[..|s| - |Fence|] else s
  }

  lemma EndsWithTrans(s: string, t: string, u: string)
    requires EndsWith(s, t) && EndsWith(t, u)
    ensures EndsWith(s, u)
  {
    assert s[|s| - |u|..] == t[|t| - |u|..];
  }

  /** The cleanup applied to generated page code: only text that starts
      with "```" is touched, and then the three rewrites run in order. What
      is left is a tail of the input, or a tail short of a final "```", and
      it never starts with white space. */
  function StripFences(code: string): (r: string)
    ensures !StartsWith(code, Fence) ==> r == code
    ensures StartsWith(code, Fence) ==> r == [] || !IsSpace(r[0])
    ensures EndsWith(code, r) || EndsWith(code, r + Fence)
  {
    if StartsWith(code, Fence) then
      var a := DropHtmlFence(code);
      var b := DropOpeningFence(a);
      EndsWithTrans(code, a, b);
      var r := DropClosingFence(b);
      assert r != [] && r + Fence == b ==> b[0] == r[0];
      assert EndsWith(b, b);
      r
    else code
  }

  /** Skipping white space over a blank prefix lands exactly on a text that
      does not itself start with white space. */
  lemma {:induction false} SkipBlankPrefix(ws: string, t: string)
    requires IsBlank(ws)
    requires t == [] || !IsSpace(t[0])
    ensures SkipSpace(ws + t) == t
  {
    if ws != [] {
      assert (ws + t)[1..] == ws[1..] + t;
      SkipBlankPrefix(ws[1..], t);
    }
  }

  /** The code followed by its closing fence survives the opening-fence
      rewrites and loses the closing fence. */
  lemma {:induction false} ClosedBodyCleanup(c: string)
    requires c == [] || (!IsSpace(c[0]) && c[0] != '`')
    ensures DropClosingFence(DropOpeningFence(c + Fence)) == c
  {
    var t := c + Fence;
    assert t[|t| - |Fence|..] == Fence;
    assert t[..|t| - |Fence|] == c;
    if c == [] {
      assert t == Fence;
      assert t[..|Fence|] == Fence;
      assert t[|Fence|..] == [];
      assert DropOpeningFence(t) == [];
    } else {
      assert t[0] == c[0];
      assert t[..|Fence|][0] == c[0];
      assert DropOpeningFence(t) == t;
    }
  }

  /** Cleaning up a block fenced as "```html", white space, code, "```"
      gives back the code, provided the code does not itself start with white
      space or a backquote. */
  lemma HtmlFencedRoundTrip(ws: string, c: string)
    requires IsBlank(ws)
    requires c == [] || (!IsSpace(c[0]) && c[0] != '`')
    ensures StripFences(HtmlFence + ws + c + Fence) == c
  {
    var s := HtmlFence + ws + c + Fence;
    assert s[..|HtmlFence|] == HtmlFence;
    assert s[..|Fence|] == HtmlFence[..|Fence|] == Fence;
    assert s[|HtmlFence|..] == ws + (c + Fence);
    SkipBlankPrefix(ws, c + Fence);
    assert DropHtmlFence(s) == c + Fence;
    ClosedBodyCleanup(c);
  }

  /** The three rewrites, for text that starts with a fence. */
  lemma StripFencesSteps(s: string)
    requires StartsWith(s, Fence)
    ensures StripFences(s) == DropClosingFence(DropOpeningFence(DropHtmlFence(s)))
  {
  }

  /** A bare fence takes the first rewrite only if "html" follows it. */
  lemma BareFenceNotHtml(ws: string, c: string)
    requires !StartsWith(ws + c + Fence, "html")
    ensures DropHtmlFence(Fence + ws + c + Fence) == Fence + ws + c + Fence
  {
    var s := Fence + ws + c + Fence;
    var rest := ws + c + Fence;
    if |s| >= |HtmlFence| {
      assert s[..|HtmlFence|][3..] == rest[..4];
    }
  }

  /** Past a bare fence and white space, the second rewrite stops at the code. */
  lemma BareFenceOpening(ws: string, c: string)
    requires IsBlank(ws)
    requires c == [] || (!IsSpace(c[0]) && c[0] != '`')
    ensures DropOpeningFence(Fence + ws + c + Fence) == c + Fence
  {
    var s := Fence + ws + c + Fence;
    assert s[..|Fence|] == Fence;
    assert s[|Fence|..] == ws + (c + Fence);
    SkipBlankPrefix(ws, c + Fence);
  }

  /** The closing fence at the very end comes off. */
  lemma ClosingFenceOff(c: string)
    ensures DropClosingFence(c + Fence) == c
  {
    assert (c + Fence)[|c|..] == Fence;
    assert (c + Fence)[..|c|] == c;
  }

  /** The same for a bare "```" fence, as long as what follows the fence
      does not spell "html" (which the first rewrite would take). */
  lemma BareFencedRoundTrip(ws: string, c: string)
    requires IsBlank(ws)
    requires c == [] || (!IsSpace(c[0]) && c[0] != '`')
    requires !StartsWith(ws + c + Fence, "html")
    ensures StripFences(Fence + ws + c + Fence) == c
  {
    var s := Fence + ws + c + Fence;
    assert s[..|Fence|] == Fence;
    BareFenceNotHtml(ws, c);
    BareFenceOpening(ws, c);
    ClosingFenceOff(c);
    StripFencesSteps(s);
  }

  /** A typical fenced answer loses both fences and the newline after the
      opening one, but keeps the newline before the closing one. */
  lemma StripFencesExample()
    ensures StripFences("```html\n<div/>\n```") == "<div/>\n"
  {
    assert HtmlFence + "\n" + "<div/>\n" + Fence == "```html\n<div/>\n```";
    HtmlFencedRoundTrip("\n", "<div/>\n");
  }

  /** A closing fence followed by a newline is not at the very end, so it
      stays. */
  lemma StripFencesKeepsUnanchoredClosingFence()
    ensures StripFences("```html\n<div/>\n```\n") == "<div/>\n```\n"
  {
    var s := "```html\n<div/>\n```\n";
    var b := "<div/>\n```\n";
    assert s[..|HtmlFence|] == HtmlFence;
    assert s[..|Fence|] == Fence;
    assert s[|HtmlFence|..] == "\n" + b;
    SkipBlankPrefix("\n", b);
    assert DropHtmlFence(s) == b;
    assert b[..|Fence|] != Fence;
    assert DropOpeningFence(b) == b;
    assert b[|b| - |Fence|..] != Fence;
  }

  /** An answer cut off before its closing fence loses only the opening
      fence and the white space after it. */
  lemma UnclosedHtmlBlock(ws: string, c: string)
    requires IsBlank(ws)
    requires c == [] || (!IsSpace(c[0]) && c[0] != '`')
    requires !EndsWith(c, Fence)
    ensures StripFences(HtmlFence + ws + c) == c
  {
    var s := HtmlFence + ws + c;
    assert s[..|HtmlFence|] == HtmlFence;
    assert s[..|Fence|] == HtmlFence[..|Fence|] == Fence;
    assert s[|HtmlFence|..] == ws + c;
    SkipBlankPrefix(ws, c);
    assert DropHtmlFence(s) == c;
    if |c| >= |Fence| {
      assert c[..|Fence|][0] == c[0];
    }
    assert DropOpeningFence(c) == c;
  }

  /** The truncated answer "```html\n<div/>" cleans up to "<div/>". */
  lemma UnclosedHtmlBlockExample()
    ensures StripFences("```html\n<div/>") == "<div/>"
  {
    assert HtmlFence + "\n" + "<div/>" == "```html\n<div/>";
    assert "<div/>"[3..] != Fence;
    UnclosedHtmlBlock("\n", "<div/>");
  }

  /** The first image's bytes: only the first entry of the list is looked
      at, and a missing list, an empty list or a missing image all give
      nothing. */
  lemma FirstImageOnly(g: GeneratedImage, rest: seq<GeneratedImage>)
    ensures FirstImageBytes(ImageResponded(Some([g] + rest))) == (if g.image.Some? then g.image.value.imageBytes else None)
    ensures FirstImageBytes(ImageResponded(Some([]))) == None
    ensures FirstImageBytes(ImageResponded(None)) == None
    ensures FirstImageBytes(ImageThrew) == None
  {
  }

  /** `generateProjectCode` after the provider call: a thrown error gives
      null, and so does an undefined `text`, because calling `startsWith`
      on it throws inside the same try block. Any defined text, the empty
      one included, comes back cleaned up. */
  function ProjectCodeResult(resp: TextResponse): (r: Option<string>)
    ensures r.None? <==> (resp.Threw? || resp.text.None?)
    ensures resp.Responded? && resp.text.Some? ==> r == Some(StripFences(resp.text.value))
    ensures r.Some? ==> EndsWith(resp.text.value, r.value) || EndsWith(resp.text.value, r.value + Fence)
    ensures resp == Responded(Some("")) ==> r == Some("")
  {
    match resp
    case Threw => None
    case Responded(text) =>
      match text
      case None => None
      case Some(code) => Some(StripFences(code))
  }

  /** `generateProjectBrief` after the provider call. `parse` stands for
      `JSON.parse` followed by the unchecked cast to a brief: `None` when it
      throws or yields null. A brief comes back only from a non-empty text
      that parses; a thrown call, an undefined or empty text and a failed
      parse all give null. */
  function ProjectBriefResult(resp: TextResponse, parse: string -> Option<ProjectBrief>): (r: Option<ProjectBrief>)
    ensures r.Some? <==> resp.Responded? && Truthy(resp.text) && parse(resp.text.value).Some?
    ensures r.Some? ==> r == parse(resp.text.value)
  {
    match resp
    case Threw => None
    case Responded(text) =>
      if Truthy(text) then parse(text.value) else None
  }

  /** The optional chain `response.generatedImages?.[0]?.image?.imageBytes`. */
  function FirstImageBytes(resp: ImageResponse): Option<string> {
    match resp
    case ImageThrew => None
    case ImageResponded(images) =>
      if images.None? || |images.value| == 0 then None
      else
        match images.value[0].image
        case None => None
        case Some(data) => data.imageBytes
  }

  /** `generateConceptImage` after the provider call: a data URL exactly
      when the first image carries non-empty bytes, null otherwise. A URL
      it returns is never empty, so callers always find it truthy. */
  function ConceptImageResult(resp: ImageResponse): (r: Option<string>)
    ensures r.Some? <==> Truthy(FirstImageBytes(resp))
    ensures r.Some? ==> Truthy(r) && StartsWith(r.value, DataUrlPrefix)
  {
    var bytes := FirstImageBytes(resp);
    if Truthy(bytes) then Some(DataUrlPrefix + bytes.value) else None
  }

  /** Reading a JPEG data URL back: the base64 payload after the prefix. */
  function ImagePayload(url: string): Option<string> {
    if StartsWith(url, DataUrlPrefix) then Some(url[|DataUrlPrefix|..]) else None
  }

  /** The data URL carries exactly the bytes the provider returned. */
  lemma ConceptImageRoundTrip(resp: ImageResponse)
    requires ConceptImageResult(resp).Some?
    ensures ImagePayload(ConceptImageResult(resp).value) == FirstImageBytes(resp)
  {
    var bytes := FirstImageBytes(resp).value;
    assert (DataUrlPrefix + bytes)[|DataUrlPrefix|..] == bytes;
  }
}
