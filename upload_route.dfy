/**
 * The image upload endpoint (app/api/upload/route.ts): it validates the
 * form's `file` entry (presence, then size, then type), writes the image
 * under a sanitised, timestamped name and answers with its public URL.
 * The clock reading and the outcome of the disk write are parameters.
 */
module UploadRoute {
  import opened Wrappers
  import opened JsString

  /** 10 MiB: larger files are refused, a file of exactly this size is accepted. */
  const MaxUploadBytes: nat := 10 * 1024 * 1024
  const AllowedTypes: seq<string> := ["image/jpeg", "image/jpg", "image/png", "image/webp", "image/gif"]

  const NoFileMessage: string := "파일이 없습니다."
  const TooLargeMessage: string := "파일 크기는 10MB를 초과할 수 없습니다."
  const NotImageMessage: string := "이미지 파일만 업로드 가능합니다."
  const UploadFailedMessage: string := "파일 업로드 중 오류가 발생했습니다."

  /** What `formData.get('file')` returns: nothing, a text field, or a file. */
  datatype FormEntry = NoEntry | TextEntry(text: string) | FileEntry(name: string, size: nat, mimeType: string)

  /** The request: a form body, or one whose `formData()` throws with `message`. */
  datatype Request = Unreadable(message: string) | Form(file: FormEntry)

  datatype Body = Failure(error: string) | Success(url: string)
  datatype Response = Response(status: int, body: Body)

  /** `!file`: absent, or the empty text field (the only falsy entries). */
  predicate Missing(entry: FormEntry) {
    entry.NoEntry? || entry == TextEntry("")
  }

  /** `file.size > 10 * 1024 * 1024`; a text field has no size, and `undefined > n` is false. */
  predicate TooLarge(entry: FormEntry) {
    entry.FileEntry? && entry.size > MaxUploadBytes
  }

  /** `allowedTypes.includes(file.type)`; a text field's `type` is `undefined`. */
  predicate AllowedType(entry: FormEntry) {
    entry.FileEntry? && entry.mimeType in AllowedTypes
  }

  /** The characters of `[a-zA-Z0-9.-]`, which the sanitiser keeps. */
  predicate IsKeptChar(c: char) {
    ('a' <= c <= 'z') || ('A' <= c <= 'Z') || ('0' <= c <= '9') || c == '.' || c == '-'
  }

  /** `name.replace(/[^a-zA-Z0-9.-]/g, '_')`. */
  function SanitizeName(name: string): (r: string)
    ensures |r| == |name|
    ensures forall i :: 0 <= i < |name| ==> r[i] == if IsKeptChar(name[i]) then name[i] else '_'
  {
    seq(|name|, i requires 0 <= i < |name| => if IsKeptChar(name[i]) then name[i] else '_')
  }

  /** Sanitising twice is sanitising once; the result holds only kept characters and '_'. */
  lemma SanitizeIdempotent(name: string)
    ensures forall i :: 0 <= i < |SanitizeName(name)| ==> IsKeptChar(SanitizeName(name)[i]) || SanitizeName(name)[i] == '_'
    ensures SanitizeName(SanitizeName(name)) == SanitizeName(name)
  {
  }

  /** A name that needs no sanitising is left as it is. */
  lemma SanitizeKeepsCleanNames(name: string)
    requires forall i :: 0 <= i < |name| ==> IsKeptChar(name[i])
    ensures SanitizeName(name) == name
  {
  }

  /** `${timestamp}_${originalName}`. */
  function StoredFileName(timestamp: nat, name: string): string {
    DecimalString(timestamp) + "_" + SanitizeName(name)
  }

  /** `/uploads/${filename}`. */
  function Url(filename: string): string {
    "/uploads/" + filename
  }

  /**
   * The stored name is a single path segment inside the upload directory: it
   * has no separator, and it starts with a digit, so it is neither "." nor "..".
   */
  lemma StoredFileNameIsOneSegment(timestamp: nat, name: string)
    ensures var f := StoredFileName(timestamp, name);
      && (forall i :: 0 <= i < |f| ==> f[i] != '/' && f[i] != '\\')
      && IsDigit(f[0]) && f != "." && f != ".."
  {
    var f := StoredFileName(timestamp, name);
    var d := DecimalString(timestamp);
    forall i | 0 <= i < |f| ensures f[i] != '/' && f[i] != '\\' {
      if i < |d| {
        assert f[i] == d[i];
      } else if i > |d| {
        assert f[i] == SanitizeName(name)[i - |d| - 1];
      }
    }
    assert f[0] == d[0];
  }

  /** The timestamp can be read back from the stored name: the digits before the first '_'. */
  lemma StoredFileNameTimestamp(timestamp: nat, name: string)
    ensures var f := StoredFileName(timestamp, name);
      var n := |DecimalString(timestamp)|;
      && n < |f| && f[n] == '_'
      && (forall i :: 0 <= i < n ==> f[i] != '_')
      && AllDigits(f[..n]) && ParseDecimal(f[..n]) == timestamp
  {
    var f := StoredFileName(timestamp, name);
    var d := DecimalString(timestamp);
    assert f[..|d|] == d;
    ParseDecimalString(timestamp);
  }

  /** The upload is accepted by every check: a file, at most 10 MiB, of an image type. */
  predicate Acceptable(entry: FormEntry) {
    entry.FileEntry? && entry.size <= MaxUploadBytes && entry.mimeType in AllowedTypes
  }

  /** The 500 answer: `error.message || '파일 업로드 중 오류가 발생했습니다.'`. */
  function ServerError(message: string): (r: Response)
    ensures r.status == 500 && r.body.Failure?
    ensures r.body.error == if message == "" then UploadFailedMessage else message
  {
    Response(500, Failure(if message == "" then UploadFailedMessage else message))
  }

  /**
   * `POST`. `writeFailure` is the message of the error, if any, that reading
   * the file or writing it to disk throws.
   */
  function Handle(request: Request, now: nat, writeFailure: Option<string>): (r: Response)
    ensures r.status == 200 <==> request.Form? && Acceptable(request.file) && writeFailure.None?
    ensures r.status == 200 ==> r.body == Success(Url(StoredFileName(now, request.file.name)))
    ensures r.status in {200, 400, 500}
    ensures r.status == 400 <==> request.Form? && !Acceptable(request.file)
    ensures request.Form? && Missing(request.file) ==> r == Response(400, Failure(NoFileMessage))
    ensures request.Form? && !Missing(request.file) && TooLarge(request.file) ==> r == Response(400, Failure(TooLargeMessage))
    ensures request.Form? && !Missing(request.file) && !TooLarge(request.file) && !AllowedType(request.file) ==>
      r == Response(400, Failure(NotImageMessage))
  {
    match request
    case Unreadable(message) => ServerError(message)
    case Form(file) =>
      if Missing(file) then Response(400, Failure(NoFileMessage))
      else if TooLarge(file) then Response(400, Failure(TooLargeMessage))
      else if !AllowedType(file) then Response(400, Failure(NotImageMessage))
      else match writeFailure
        case Some(message) => ServerError(message)
        case None => Response(200, Success(Url(StoredFileName(now, file.name))))
  }

  /** The limit is inclusive: a file of exactly 10 MiB of an image type is stored. */
  lemma ExactLimitAccepted(name: string, mimeType: string, now: nat)
    requires mimeType in AllowedTypes
    ensures Handle(Form(FileEntry(name, MaxUploadBytes, mimeType)), now, None).status == 200
    ensures Handle(Form(FileEntry(name, MaxUploadBytes + 1, mimeType)), now, None).status == 400
  {
  }

  /** A non-empty text field passes the presence check and fails the type check. */
  lemma TextFieldIsNotAnImage(text: string, now: nat, writeFailure: Option<string>)
    requires text != ""
    ensures Handle(Form(TextEntry(text)), now, writeFailure) == Response(400, Failure(NotImageMessage))
  {
  }

  /** Every URL handed out names a file directly under /uploads/. */
  lemma SuccessUrlIsUnderUploads(request: Request, now: nat, writeFailure: Option<string>)
    requires Handle(request, now, writeFailure).status == 200
    ensures var url := Handle(request, now, writeFailure).body.url;
      && url[..9] == "/uploads/"
      && forall i :: 9 <= i < |url| ==> url[i] != '/' && url[i] != '\\'
  {
    var f := StoredFileName(now, request.file.name);
    StoredFileNameIsOneSegment(now, request.file.name);
    var url := Url(f);
    assert forall i :: 9 <= i < |url| ==> url[i] == f[i - 9];
  }
}
