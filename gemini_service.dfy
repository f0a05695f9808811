/** The image-editing service: the request sent to the model, the search of
    the reply for the first inline image, and the data URL built from it.
    The network call itself is an input: `reply` is the response the call
    resolved to, or None when it rejected. */
module GeminiService {
  import opened Wrappers

  const EditingModel: string := "gemini-2.5-flash-image"
  const NoImageGenerated: string := "No image generated."
  const FailedToEdit: string := "Failed to edit image."
  /** The message of the TypeError raised when the first candidate has no
      `content` or no `parts` to iterate. */
  const NotReadable: string := "TypeError"

  /** The image sub-types the leading-prefix pattern accepts, in its order. */
  const ImageKinds: seq<string> := ["png", "jpeg", "jpg", "webp"]

  datatype InlineData = InlineData(mimeType: Option<string>, data: Option<string>)
  datatype Part = Part(inlineData: Option<InlineData>, text: Option<string>)
  datatype Content = Content(parts: Option<seq<Part>>)
  datatype Candidate = Candidate(content: Option<Content>)
  datatype Response = Response(candidates: Option<seq<Candidate>>)
  datatype Request = Request(model: string, parts: seq<Part>)

  // ---------------------------------------------------------------------------
  // Data URLs

  /** `data:<mime>;base64,<data>`. */
  function DataUrl(mime: string, data: string): string {
    "data:" + mime + ";base64," + data
  }

  /** The prefix the pattern `^data:image\/(png|jpeg|jpg|webp);base64,`
      matches for one of the accepted kinds. */
  function DataPrefix(kind: string): string {
    "data:image/" + kind + ";base64,"
  }

  /** `base64Image.replace(/^data:image\/(png|jpeg|jpg|webp);base64,/, '')`:
      the result is always a suffix of the input; when the input starts with
      the prefix of an accepted kind exactly that prefix is removed, and
      otherwise the input comes back unchanged. */
  function StripDataUrlPrefix(s: string): (r: string)
    ensures |r| <= |s| && r == s[|s| - |r|..]
    ensures forall k :: k in ImageKinds && DataPrefix(k) <= s ==> r == s[|DataPrefix(k)|..]
    ensures (forall k :: k in ImageKinds ==> !(DataPrefix(k) <= s)) ==> r == s
  {
    var png, jpeg, jpg, webp := DataPrefix("png"), DataPrefix("jpeg"), DataPrefix("jpg"), DataPrefix("webp");
    assert png[11] == 'p' && jpeg[11] == 'j' && jpg[11] == 'j' && webp[11] == 'w';
    assert jpeg[13] == 'e' && jpg[13] == 'g';
    if png <= s then s[|png|..]
    else if jpeg <= s then s[|jpeg|..]
    else if jpg <= s then s[|jpg|..]
    else if webp <= s then s[|webp|..]
    else s
  }

  /** The prefix of an accepted kind followed by anything strips to that
      anything. */
  lemma StripPrefixed(kind: string, data: string)
    requires kind in ImageKinds
    ensures StripDataUrlPrefix(DataPrefix(kind) + data) == data
  {
    var p := DataPrefix(kind);
    assert p <= p + data;
    assert (p + data)[|p|..] == data;
  }

  /** Round trip: a data URL of an accepted image type strips back to its
      payload. */
  lemma StripDataUrl(kind: string, data: string)
    requires kind in ImageKinds
    ensures StripDataUrlPrefix(DataUrl("image/" + kind, data)) == data
  {
    assert DataUrl("image/" + kind, data) == DataPrefix(kind) + data;
    StripPrefixed(kind, data);
  }

  /** A data URL of any other image type, GIF for one, is sent unchanged. */
  lemma StripKeepsGif(data: string)
    ensures StripDataUrlPrefix(DataUrl("image/gif", data)) == DataUrl("image/gif", data)
  {
    var s := DataUrl("image/gif", data);
    assert s[11] == 'g';
    forall k | k in ImageKinds
      ensures !(DataPrefix(k) <= s)
    {
      assert DataPrefix(k)[11] != 'g';
    }
  }

  /** Only one leading prefix is removed, so stripping twice can remove
      more than stripping once. */
  lemma StripNotIdempotent()
    ensures var s := DataPrefix("png") + DataPrefix("png") + "QQ==";
            StripDataUrlPrefix(StripDataUrlPrefix(s)) != StripDataUrlPrefix(s)
  {
    var p := DataPrefix("png");
    var s := p + p + "QQ==";
    assert s == p + (p + "QQ==");
    StripPrefixed("png", p + "QQ==");
    StripPrefixed("png", "QQ==");
    assert |StripDataUrlPrefix(StripDataUrlPrefix(s))| == 4;
  }

  // ---------------------------------------------------------------------------
  // The reply

  /** `part.inlineData && part.inlineData.data`: the part carries a
      non-empty payload. */
  predicate HasImage(p: Part) {
    p.inlineData.Some? && Truthy(p.inlineData.value.data)
  }

  /** `mimeType || 'image/png'`. */
  function MimeOrPng(mime: Option<string>): (r: string)
    ensures r != ""
    ensures Truthy(mime) ==> r == mime.value
    ensures !Truthy(mime) ==> r == "image/png"
  {
    if Truthy(mime) then mime.value else "image/png"
  }

  /** The data URL of an image part. */
  function PartUrl(p: Part): string
    requires HasImage(p)
  {
    DataUrl(MimeOrPng(p.inlineData.value.mimeType), p.inlineData.value.data.value)
  }

  /** The index of the first part carrying an image: it carries one, and no
      part before it does; None exactly when no part does. */
  function FirstImage(parts: seq<Part>): (r: Option<nat>)
    ensures r.Some? ==> r.value < |parts| && HasImage(parts[r.value])
    ensures r.Some? ==> forall j :: 0 <= j < r.value ==> !HasImage(parts[j])
    ensures r.None? <==> forall j :: 0 <= j < |parts| ==> !HasImage(parts[j])
  {
    if parts == [] then None
    else if HasImage(parts[0]) then Some(0)
    else
      match FirstImage(parts[1..])
      case None =>
        assert forall j :: 1 <= j < |parts| ==> parts[j] == parts[1..][j - 1];
        None
      case Some(i) =>
        assert forall j :: 1 <= j <= i + 1 ==> parts[j] == parts[1..][j - 1];
        Some(i + 1)
  }

  /** `candidates && candidates.length > 0`. */
  predicate HasCandidates(resp: Response) {
    resp.candidates.Some? && |resp.candidates.value| > 0
  }

  /** `candidates[0].content.parts` can be iterated. */
  predicate Readable(resp: Response)
    requires HasCandidates(resp)
  {
    resp.candidates.value[0].content.Some? && resp.candidates.value[0].content.value.parts.Some?
  }

  function FirstParts(resp: Response): seq<Part>
    requires HasCandidates(resp) && Readable(resp)
  {
    resp.candidates.value[0].content.value.parts.value
  }

  /** What the code after the call makes of a response: the data URL of the
      first image part of the first candidate (the earliest one, as
      FirstImage finds it); "No image generated." when
      there is no candidate or no such part; a TypeError when the first
      candidate has nothing to iterate. */
  function ResponseImage(resp: Response): (r: Result<string, string>)
    ensures !HasCandidates(resp) ==> r == Err(NoImageGenerated)
    ensures HasCandidates(resp) && !Readable(resp) ==> r == Err(NotReadable)
    ensures r.Ok? <==> HasCandidates(resp) && Readable(resp) && FirstImage(FirstParts(resp)).Some?
    ensures r.Ok? ==> exists p :: p in FirstParts(resp) && HasImage(p) && r.value == PartUrl(p)
    ensures r.Ok? ==> r.value == PartUrl(FirstParts(resp)[FirstImage(FirstParts(resp)).value])
  {
    if !HasCandidates(resp) then Err(NoImageGenerated)
    else if !Readable(resp) then Err(NotReadable)
    else
      var parts := FirstParts(resp);
      match FirstImage(parts)
      case None => Err(NoImageGenerated)
      case Some(i) => Ok(PartUrl(parts[i]))
  }

  /** Later candidates play no part: two responses with the same first
      candidate give the same outcome. */
  lemma LaterCandidatesIgnored(a: Response, b: Response)
    requires HasCandidates(a) && HasCandidates(b)
    requires a.candidates.value[0] == b.candidates.value[0]
    ensures ResponseImage(a) == ResponseImage(b)
  {
  }

  /** Later parts play no part once an image part is found: appending parts
      after it changes nothing. */
  lemma {:induction false} LaterPartsIgnored(parts: seq<Part>, more: seq<Part>)
    requires FirstImage(parts).Some?
    ensures FirstImage(parts + more) == FirstImage(parts)
  {
    var i := FirstImage(parts).value;
    assert forall j :: 0 <= j <= i ==> (parts + more)[j] == parts[j];
  }

  /** A successful reply is a well-formed data URL with a non-empty payload:
      an image part's mime type (or `image/png`) and its data. */
  lemma ResultIsDataUrl(resp: Response)
    requires ResponseImage(resp).Ok?
    ensures exists mime: string, data: string :: mime != "" && data != "" && ResponseImage(resp).value == DataUrl(mime, data)
  {
    var parts := FirstParts(resp);
    var p := parts[FirstImage(parts).value];
    var mime, data := MimeOrPng(p.inlineData.value.mimeType), p.inlineData.value.data.value;
    assert ResponseImage(resp).value == DataUrl(mime, data);
  }

  /** Scanning the parts with `for ... of` and returning at the first image
      part. */
  method ImageFromParts(parts: seq<Part>) returns (url: Option<string>)
    ensures url.None? <==> FirstImage(parts).None?
    ensures url.Some? ==> url.value == PartUrl(parts[FirstImage(parts).value])
  {
    for i := 0 to |parts|
      invariant forall j :: 0 <= j < i ==> !HasImage(parts[j])
    {
      var part := parts[i];
      if part.inlineData.Some? && Truthy(part.inlineData.value.data) {
        return Some(DataUrl(MimeOrPng(part.inlineData.value.mimeType), part.inlineData.value.data.value));
      }
    }
    return None;
  }

  /** The body of the `try` after the call resolved. */
  method ImageFromResponse(resp: Response) returns (r: Result<string, string>)
    ensures r == ResponseImage(resp)
  {
    var candidates := resp.candidates;
    if candidates.Some? && |candidates.value| > 0 {
      var content := candidates.value[0].content;
      if content.None? || content.value.parts.None? {
        return Err(NotReadable);
      }
      var url := ImageFromParts(content.value.parts.value);
      if url.Some? {
        return Ok(url.value);
      }
    }
    return Err(NoImageGenerated);
  }

  /** The request: the model name, then the stripped image declared as
      JPEG whatever its real type, then the prompt. */
  function BuildRequest(base64Image: string, prompt: string): (req: Request)
    ensures req.model == EditingModel && |req.parts| == 2
    ensures req.parts[0].inlineData == Some(InlineData(Some("image/jpeg"), Some(StripDataUrlPrefix(base64Image))))
    ensures req.parts[1] == Part(None, Some(prompt))
  {
    Request(EditingModel, [Part(Some(InlineData(Some("image/jpeg"), Some(StripDataUrlPrefix(base64Image)))), None),
                           Part(None, Some(prompt))])
  }

  /** Whatever the real type of an accepted data URL, the request carries
      its bare payload labelled `image/jpeg`. */
  lemma BuildRequestRelabels(kind: string, data: string, prompt: string)
    requires kind in ImageKinds
    ensures BuildRequest(DataUrl("image/" + kind, data), prompt).parts[0].inlineData
            == Some(InlineData(Some("image/jpeg"), Some(data)))
  {
    StripDataUrl(kind, data);
  }

  /** `editImageWithAI`: the request it sends, and its outcome given what
      the call resolved to. Every failure, the call's own included, comes
      out as "Failed to edit image."; success is the first image part. */
  method EditImageWithAI(base64Image: string, prompt: string, reply: Option<Response>)
    returns (request: Request, result: Result<string, string>)
    ensures request == BuildRequest(base64Image, prompt)
    ensures result.Err? ==> result.error == FailedToEdit
    ensures result.Ok? <==> reply.Some? && ResponseImage(reply.value).Ok?
    ensures result.Ok? ==> result.value == ResponseImage(reply.value).value
  {
    var cleanBase64 := StripDataUrlPrefix(base64Image);
    request := Request(EditingModel, [Part(Some(InlineData(Some("image/jpeg"), Some(cleanBase64))), None),
                                      Part(None, Some(prompt))]);
    if reply.None? {
      return request, Err(FailedToEdit);
    }
    var r := ImageFromResponse(reply.value);
    if r.Err? {
      return request, Err(FailedToEdit);
    }
    result := r;
  }
}
