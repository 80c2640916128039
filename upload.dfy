/**
  The image upload (services/upload.service.ts): the URI fix-up, the file
  name, extension and MIME type sent in the multipart form, the choice of
  the URL field in the answer, its resolution against the API base, and the
  classification of failures. The POST itself is a parameter: how it ended.
*/
module Upload {
  import opened Wrappers
  import opened Entities
  import Strings

  const InvalidUriMessage := "URI de imagen inválida"
  const MissingUrlMessage := "El servidor no devolvió una URL de imagen"
  const NetworkMessage := "No se pudo conectar con el servidor. Revisa API_BASE_URL y que el dispositivo esté en la misma red."
  const DefaultUploadMessage := "No se pudo subir la imagen"
  /** The timeout of the upload request, in milliseconds. */
  const UploadTimeoutMs: nat := 20000

  /** The `file` part of the form. */
  datatype UploadFile = UploadFile(uri: string, name: string, mimeType: string)

  /** The fields of `res.data` the client reads. */
  datatype ResponseData = ResponseData(url: Option<string>, path: Option<string>, location: Option<string>)

  /** How the POST ended: an answer (whose body may be empty), an error
      status with the body as text, a request that got no response, or any
      other failure with its message. */
  datatype PostOutcome =
    | Responded(data: Option<ResponseData>)
    | StatusError(status: nat, body: string)
    | NoResponse
    | OtherFailure(message: Option<string>)

  /** The error `uploadImage` throws. */
  datatype UploadError =
    | InvalidUri
    | HttpStatus(status: nat, body: string)
    | Unreachable
    | Other(message: string)

  /** What was sent, if anything, and what came back. */
  datatype UploadReport = UploadReport(sent: Option<UploadFile>, result: Result<string, UploadError>)

  /** On Android the URI is used as is; elsewhere the first `file://` is
      removed. */
  function FixUri(uri: string, isAndroid: bool): (r: string)
    ensures isAndroid ==> r == uri
    ensures !isAndroid && Strings.IndexOf(uri, "file://").None? ==> r == uri
    ensures !isAndroid && Strings.IndexOf(uri, "file://").Some? ==>
      var i := Strings.IndexOf(uri, "file://").value;
      r == uri[..i] + uri[i + 7..]
  {
    if isAndroid then uri else Strings.ReplaceFirst(uri, "file://", "")
  }

  /** An iOS file URI loses its scheme and nothing else. */
  lemma FixFileUri(path: string)
    ensures FixUri("file://" + path, false) == path
  {
    Strings.ReplacePrefix("file://", path, "");
  }

  /** The name used when the URI ends in "/": `image-<now>.jpg`. */
  function FallbackName(now: nat): (r: string)
    ensures Strings.StartsWith(r, "image-") && '/' !in r
    ensures Strings.LastSegment(r, '.') == "jpg"
  {
    var digits := Strings.NatToString(now);
    var stem := "image-" + digits;
    assert '/' !in digits by {
      assert forall k :: 0 <= k < |digits| ==> Strings.IsDigit(digits[k]);
    }
    Strings.LastSegmentAfter(stem, "jpg", '.');
    assert stem + ".jpg" == stem + ['.'] + "jpg";
    stem + ".jpg"
  }

  /** The segment after the last "/", or the fallback name when it is
      empty. */
  function FileName(fixedUri: string, now: nat): (r: string)
    ensures r != "" && '/' !in r
    ensures Strings.LastSegment(fixedUri, '/') != "" ==> r == Strings.LastSegment(fixedUri, '/')
    ensures Strings.LastSegment(fixedUri, '/') == "" ==> r == FallbackName(now)
  {
    var last := Strings.LastSegment(fixedUri, '/');
    if last != "" then last else FallbackName(now)
  }

  /** A name taken from the URI is the URI's own tail. */
  lemma FileNameIsTail(fixedUri: string, now: nat)
    requires Strings.LastSegment(fixedUri, '/') != ""
    ensures var name := FileName(fixedUri, now);
      |name| <= |fixedUri| && fixedUri[|fixedUri| - |name|..] == name
  {
    Strings.LastSegmentIsSuffix(fixedUri, '/');
  }

  /** The lower-cased segment after the last ".", or "jpg" when it is
      empty. */
  function Extension(fileName: string): (r: string)
    ensures r != "" && '.' !in r
    ensures forall k :: 0 <= k < |r| ==> !('A' <= r[k] <= 'Z')
    ensures Strings.LastSegment(fileName, '.') != "" ==> r == Strings.ToLowerAscii(Strings.LastSegment(fileName, '.'))
    ensures Strings.LastSegment(fileName, '.') == "" ==> r == "jpg"
  {
    var last := Strings.LastSegment(fileName, '.');
    var e := Strings.ToLowerAscii(if last != "" then last else "jpg");
    assert forall k :: 0 <= k < |e| ==> e[k] != '.' by {
      var raw := if last != "" then last else "jpg";
      forall k | 0 <= k < |e| ensures e[k] != '.' {
        assert raw[k] != '.';
      }
    }
    e
  }

  /** A name ending in "." and a dot-free extension has that extension,
      lower-cased. */
  lemma ExtensionOfName(stem: string, ext: string)
    requires ext != "" && '.' !in ext
    ensures Extension(stem + "." + ext) == Strings.ToLowerAscii(ext)
  {
    Strings.LastSegmentAfter(stem, ext, '.');
  }

  /** A name ending in "." falls back to "jpg". */
  lemma ExtensionOfTrailingDot(stem: string)
    ensures Extension(stem + ".") == "jpg"
  {
    Strings.LastSegmentAfter(stem, "", '.');
    assert stem + "." + "" == stem + ".";
  }

  /** An upper-case `PNG` extension is still sent as `image/png`. */
  lemma UpperCasePngIsPng(stem: string)
    ensures MimeType(Extension(stem + ".PNG")) == "image/png"
  {
    assert stem + ".PNG" == stem + "." + "PNG";
    ExtensionOfName(stem, "PNG");
    var e := Strings.ToLowerAscii("PNG");
    assert e == "png" by {
      assert e[0] == Strings.LowerChar('P') == 'p';
      assert e[1] == Strings.LowerChar('N') == 'n';
      assert e[2] == Strings.LowerChar('G') == 'g';
    }
  }

  /** `image/png` for `png`, `image/webp` for `webp`, `image/jpeg` for any
      other extension. */
  function MimeType(ext: string): (m: string)
    ensures m in {"image/png", "image/webp", "image/jpeg"}
    ensures m == "image/png" <==> ext == "png"
    ensures m == "image/webp" <==> ext == "webp"
  {
    var mime := "image/jpeg";
    var mime := if ext == "png" then "image/png" else mime;
    if ext == "webp" then "image/webp" else mime
  }

  function PrepareFile(uri: string, isAndroid: bool, now: nat): (f: UploadFile)
    ensures f.uri == FixUri(uri, isAndroid)
    ensures f.name == FileName(f.uri, now)
    ensures f.mimeType == MimeType(Extension(f.name))
  {
    var fixedUri := FixUri(uri, isAndroid);
    var name := FileName(fixedUri, now);
    UploadFile(fixedUri, name, MimeType(Extension(name)))
  }

  /** `res.data?.url || res.data?.path || res.data?.location`, `None` when
      none of them is a non-empty string. */
  function RawUrl(data: Option<ResponseData>): (r: Option<string>)
    ensures r.Some? ==> r.value != ""
    ensures r.None? <==> data.None? || (!Truthy(data.value.url) && !Truthy(data.value.path) && !Truthy(data.value.location))
    ensures data.Some? && Truthy(data.value.url) ==> r == data.value.url
    ensures data.Some? && !Truthy(data.value.url) && Truthy(data.value.path) ==> r == data.value.path
    ensures data.Some? && !Truthy(data.value.url) && !Truthy(data.value.path) && Truthy(data.value.location) ==> r == data.value.location
  {
    if data.None? then None
    else if Truthy(data.value.url) then data.value.url
    else if Truthy(data.value.path) then data.value.path
    else if Truthy(data.value.location) then data.value.location
    else None
  }

  /** An absolute answer is kept; a relative one is joined to the base with
      exactly one "/" between them. */
  function ResolveUrl(base: string, raw: string): (r: string)
    ensures Strings.StartsWith(raw, "http") ==> r == raw
    ensures !Strings.StartsWith(raw, "http") ==>
      r == base + "/" + (if Strings.StartsWith(raw, "/") then raw[1..] else raw)
    ensures Strings.StartsWith(base, "http") ==> Strings.StartsWith(r, "http")
  {
    if Strings.StartsWith(raw, "http") then raw
    else
      var r := base + (if Strings.StartsWith(raw, "/") then "" else "/") + raw;
      assert Strings.StartsWith(raw, "/") ==> raw == "/" + raw[1..];
      assert Strings.StartsWith(base, "http") ==> r[..4] == base[..4];
      r
  }

  /** With an `http…` base, resolving a resolved URL changes nothing. */
  lemma ResolveIdempotent(base: string, raw: string)
    requires Strings.StartsWith(base, "http")
    ensures ResolveUrl(base, ResolveUrl(base, raw)) == ResolveUrl(base, raw)
  {
  }

  /** The error a failed POST becomes: the status when the server answered,
      the network message when the request got no response, else the
      failure's own message or the default one. */
  function ClassifyFailure(outcome: PostOutcome): (e: UploadError)
    requires !outcome.Responded?
    ensures outcome.StatusError? ==> e == HttpStatus(outcome.status, outcome.body)
    ensures outcome.NoResponse? ==> e == Unreachable
    ensures outcome.OtherFailure? ==> e.Other? && e.message != ""
    ensures outcome.OtherFailure? && Truthy(outcome.message) ==> e == Other(outcome.message.value)
  {
    match outcome
    case StatusError(status, body) => HttpStatus(status, body)
    case NoResponse => Unreachable
    case OtherFailure(message) => Other(if Truthy(message) then message.value else DefaultUploadMessage)
  }

  /** What the `try` block and its `catch` make of the POST's outcome. */
  function ResultOf(base: string, outcome: PostOutcome): (r: Result<string, UploadError>)
    ensures outcome.Responded? && RawUrl(outcome.data).Some? ==> r == Ok(ResolveUrl(base, RawUrl(outcome.data).value))
    ensures outcome.Responded? && RawUrl(outcome.data).None? ==> r == Err(Other(MissingUrlMessage))
    ensures !outcome.Responded? ==> r == Err(ClassifyFailure(outcome))
    ensures r.Ok? && Strings.StartsWith(base, "http") ==> Strings.StartsWith(r.value, "http")
  {
    if outcome.Responded? then
      var raw := RawUrl(outcome.data);
      if raw.Some? then Ok(ResolveUrl(base, raw.value))
      // The "no URL" error is thrown inside the `try`, so the `catch`
      // re-throws it as a failure that is neither HTTP nor network.
      else Err(ClassifyFailure(OtherFailure(Some(MissingUrlMessage))))
    else Err(ClassifyFailure(outcome))
  }

  /** `uploadImage(uri)` against the base URL `base`, at time `now`: an
      empty URI fails before anything is sent; any other is fixed, named and
      typed, and sent. */
  function UploadImage(uri: string, isAndroid: bool, now: nat, base: string, outcome: PostOutcome): (r: UploadReport)
    ensures uri == "" ==> r.sent == None && r.result == Err(InvalidUri)
    ensures uri != "" ==> r.sent == Some(PrepareFile(uri, isAndroid, now)) && r.result == ResultOf(base, outcome)
  {
    if uri == "" then UploadReport(None, Err(InvalidUri))
    else UploadReport(Some(PrepareFile(uri, isAndroid, now)), ResultOf(base, outcome))
  }

  /** The text of the thrown error. */
  function ErrorMessage(e: UploadError): (m: string)
    ensures m != ""
    ensures e.HttpStatus? ==> Strings.StartsWith(m, DefaultUploadMessage + " (HTTP ")
  {
    match e
    case InvalidUri => InvalidUriMessage
    case HttpStatus(status, body) =>
      assert (DefaultUploadMessage + " (HTTP " + Strings.NatToString(status) + ": " + body + ")")[..|DefaultUploadMessage + " (HTTP "|]
        == DefaultUploadMessage + " (HTTP ";
      DefaultUploadMessage + " (HTTP " + Strings.NatToString(status) + ": " + body + ")"
    case Unreachable => NetworkMessage
    case Other(message) => if message != "" then message else DefaultUploadMessage
  }
}
