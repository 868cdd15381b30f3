/** Screenshot filenames and the cloud upload chain of the desktop app: sign-in check, object
    upload, signed link, metadata row. The backend is an oracle: its replies are parameters and
    the calls made to it are part of the result. */
module Upload {
  import opened Common

  /** `.replace(/[:.]/g, '-')` on one character. */
  function Dash(c: char): char {
    if c == ':' || c == '.' then '-' else c
  }

  /** `.replace(/[:.]/g, '-')` */
  function Sanitize(s: string): (r: string)
    ensures |r| == |s|
    ensures forall i :: 0 <= i < |s| ==> r[i] == Dash(s[i])
    decreases |s|
  {
    if s == [] then [] else [Dash(s[0])] + Sanitize(s[1..])
  }

  /** `.slice(0, -5)`: drops the last five characters; shorter strings become empty. */
  function DropLast5(s: string): string {
    if |s| >= 5 then s[..|s| - 5] else ""
  }

  /** The timestamp part of a filename, from `Date.toISOString()`. */
  function Timestamp(iso: string): string {
    DropLast5(Sanitize(iso))
  }

  const DefaultPrefix: string := "snipt"

  /** `generateFilename(prefix)` at the instant whose ISO string is `iso`. */
  function GenerateFilename(prefix: string, iso: string): string {
    prefix + "-" + Timestamp(iso) + ".png"
  }

  lemma TimestampHasNoSeparators(iso: string)
    ensures forall i :: 0 <= i < |Timestamp(iso)| ==> Timestamp(iso)[i] != ':' && Timestamp(iso)[i] != '.'
  {
  }

  /** A 24-character ISO string keeps its first 19 characters, with separators turned into dashes. */
  lemma TimestampOf24(iso: string)
    requires |iso| == 24
    ensures |Timestamp(iso)| == 19
    ensures forall i :: 0 <= i < 19 ==> Timestamp(iso)[i] == Dash(iso[i])
  {
  }

  predicate IsDigitAt(s: string, i: nat)
    requires i < |s|
  {
    IsDigit(s[i])
  }

  /** `YYYY-MM-DDTHH:mm:ss.sssZ`, the form `toISOString()` gives for years 0 to 9999. */
  predicate IsIsoString(s: string) {
    |s| == 24 &&
    s[4] == '-' && s[7] == '-' && s[10] == 'T' && s[13] == ':' && s[16] == ':' && s[19] == '.' && s[23] == 'Z' &&
    forall i :: 0 <= i < 23 && i !in {4, 7, 10, 13, 16, 19} ==> IsDigitAt(s, i)
  }

  /** For such a string only the two colons of the time change. */
  lemma TimestampOfIsoString(iso: string)
    requires IsIsoString(iso)
    ensures Timestamp(iso) == iso[..13] + "-" + iso[14..16] + "-" + iso[17..19]
  {
    var t := Timestamp(iso);
    var u := iso[..13] + "-" + iso[14..16] + "-" + iso[17..19];
    assert |t| == 19 == |u|;
    forall i | 0 <= i < 19
      ensures t[i] == u[i]
    {
      if i != 13 && i != 16 {
        assert i in {4, 7, 10} || IsDigitAt(iso, i);
      }
    }
  }

  /** What the upload flow throws. */
  datatype UploadError = UploadError(code: Option<string>, message: Option<string>)

  const AuthRequired := UploadError(Some("AUTH_REQUIRED"), Some("Not authenticated"))

  const Bucket: string := "screenshots"

  /** Signed links stay valid for seven days. */
  const SignedUrlLifetime: nat := 60 * 60 * 24 * 7

  datatype StorageCall =
    | PutObject(bucket: string, path: string, body: Blob, contentType: string, cacheControl: string, upsert: bool)
    | SignUrl(bucket: string, path: string, expiresIn: nat)
    | InsertImage(userId: string, path: string, filename: string, url: string)

  /** A storage reply: a value (the stored object's path, the signed URL) or an error. */
  datatype Reply = Granted(value: string) | Refused(error: UploadError)

  /** The backend's replies to the three calls, in call order. */
  datatype StorageReplies = StorageReplies(put: Reply, sign: Reply, insert: Outcome)

  datatype CloudUpload = CloudUpload(path: string, filename: string, url: string, shareableLink: string)

  datatype UploadResult = Uploaded(upload: CloudUpload) | Rejected(error: UploadError)

  /** The calls made, in order, and what the flow returns or throws. */
  datatype UploadRun = UploadRun(calls: seq<StorageCall>, result: UploadResult)

  /** `storagePath`: objects are stored under the user's own folder. */
  function StoragePath(userId: string, filename: string): string {
    userId + "/" + filename
  }

  /** `uploadScreenshotToCloud(blob)` for the signed-in user id `userId` at instant `iso`. */
  function UploadScreenshotToCloud(userId: Option<string>, blob: Blob, iso: string, replies: StorageReplies): UploadRun {
    if !Truthy(userId) then UploadRun([], Rejected(AuthRequired))
    else
      var filename := GenerateFilename(DefaultPrefix, iso);
      var filePath := StoragePath(userId.value, filename);
      var put := PutObject(Bucket, filePath, blob, "image/png", "3600", false);
      match replies.put
      case Refused(e) => UploadRun([put], Rejected(e))
      case Granted(storedPath) =>
        var sign := SignUrl(Bucket, filePath, SignedUrlLifetime);
        match replies.sign
        case Refused(e) => UploadRun([put, sign], Rejected(e))
        case Granted(url) =>
          UploadRun([put, sign, InsertImage(userId.value, storedPath, filename, url)],
                    Uploaded(CloudUpload(storedPath, filename, url, url)))
  }

  /** Without a user id the flow throws AUTH_REQUIRED before touching storage. */
  lemma AuthBeforeStorage(userId: Option<string>, blob: Blob, iso: string, replies: StorageReplies)
    requires !Truthy(userId)
    ensures UploadScreenshotToCloud(userId, blob, iso, replies) == UploadRun([], Rejected(AuthRequired))
  {
  }

  /** With a user id the first call stores the blob as a PNG at `<userId>/<filename>`. */
  lemma UploadTarget(userId: Option<string>, blob: Blob, iso: string, replies: StorageReplies)
    requires Truthy(userId)
    ensures var run := UploadScreenshotToCloud(userId, blob, iso, replies);
      |run.calls| >= 1 &&
      run.calls[0] == PutObject(Bucket, userId.value + "/" + GenerateFilename("snipt", iso), blob, "image/png", "3600", false)
  {
  }

  /** The upload succeeds iff the object was stored and a link signed; the metadata row does not
      matter, and the shareable link is the signed URL. */
  lemma UploadSucceeds(userId: Option<string>, blob: Blob, iso: string, replies: StorageReplies, insert: Outcome)
    ensures var run := UploadScreenshotToCloud(userId, blob, iso, replies);
      run.result.Uploaded? <==> Truthy(userId) && replies.put.Granted? && replies.sign.Granted?
    ensures var run := UploadScreenshotToCloud(userId, blob, iso, replies);
      run.result.Uploaded? ==>
        run.result.upload.shareableLink == run.result.upload.url == replies.sign.value &&
        run.result.upload.path == replies.put.value &&
        run.result.upload.filename == GenerateFilename(DefaultPrefix, iso) && |run.calls| == 3
    ensures UploadScreenshotToCloud(userId, blob, iso, replies.(insert := insert))
            == UploadScreenshotToCloud(userId, blob, iso, replies)
  {
  }
}
