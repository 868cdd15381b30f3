/** The dashboard's drop zone: a size gate, a sign-in check and the storage chain per file, and two
    loops that feed it, one over dropped files with an image filter and one over picked files. */
module DragDropUpload {
  import opened Common
  import Upload

  datatype File = File(name: string, size: nat, fileType: string, body: Blob)

  /** 2 MiB. */
  const MaxSize: nat := 2 * 1024 * 1024

  /** `(size / 1024 / 1024).toFixed(2)` as a count of hundredths: the nearest one, a tie going up. */
  function Hundredths(size: nat): (n: nat)
    ensures -524288 < n * 1048576 - 100 * size <= 524288
  {
    (size * 100 + 524288) / 1048576
  }

  /** Only one count of hundredths lies that close, so `Hundredths` is the one `toFixed` picks. */
  lemma HundredthsUnique(size: nat, m: nat)
    requires -524288 < m * 1048576 - 100 * size <= 524288
    ensures m == Hundredths(size)
  {
  }

  /** A count of hundredths printed with two decimals. */
  function Fixed2(n: nat): string {
    NatToString(n / 100) + "." + [DigitChar(n % 100 / 10), DigitChar(n % 10)]
  }

  lemma DigitValueOfChar(d: nat)
    requires d < 10
    ensures DigitValue(DigitChar(d)) == d
  {
  }

  /** The printed form reads back as the count: whole part before the point, two digits after. */
  lemma Fixed2Reads(n: nat)
    ensures var r := Fixed2(n);
      |r| >= 4 && r[|r| - 3] == '.' && ParseNat(r[..|r| - 3]) * 100 + ParseNat(r[|r| - 2..]) == n
  {
    var r := Fixed2(n);
    var whole := NatToString(n / 100);
    var a, b := DigitChar(n % 100 / 10), DigitChar(n % 10);
    assert r == whole + "." + [a, b];
    assert r[..|r| - 3] == whole;
    assert r[|r| - 2..] == [a, b];
    ParseNatToString(n / 100);
    DigitValueOfChar(n % 100 / 10);
    DigitValueOfChar(n % 10);
    assert [a, b][..1] == [a];
    assert [a][..0] == [];
    calc {
      ParseNat([a, b]);
      ParseNat([a]) * 10 + DigitValue(b);
      (ParseNat([]) * 10 + DigitValue(a)) * 10 + DigitValue(b);
    }
  }

  function TooLargeMessage(size: nat): string {
    "File is " + Fixed2(Hundredths(size)) + "MB. Maximum allowed is 2MB."
  }

  const NotAuthenticated: string := "Not authenticated"
  const Uploaded: string := "File uploaded successfully!"
  const DefaultFailure: string := "Failed to upload file"
  const ImagesOnly: string := "Please drop image files only"

  /** What the environment answers for one file: the signed-in user id (none when signed out),
      the instant as an ISO string, and the storage replies. */
  datatype Env = Env(userId: Option<string>, iso: string, replies: Upload.StorageReplies)

  /** One file's effects: the storage calls made, the one toast shown, and whether
      `onUploadSuccess` was called. */
  datatype Attempt = Attempt(calls: seq<Upload.StorageCall>, toast: Notice, uploaded: bool)

  /** `file.type || 'image/png'` */
  function ContentType(file: File): string {
    if file.fileType != "" then file.fileType else "image/png"
  }

  /** `` `snipt-${timestamp}.png` `` */
  function Filename(iso: string): string {
    "snipt-" + Upload.Timestamp(iso) + ".png"
  }

  /** `uploadFile(file)` */
  function UploadFile(file: File, env: Env): Attempt {
    if file.size > MaxSize then Attempt([], Notice(TooLargeMessage(file.size), ErrorNotice), false)
    else if env.userId.None? then Attempt([], Notice(NotAuthenticated, ErrorNotice), false)
    else
      var filename := Filename(env.iso);
      var filePath := env.userId.value + "/" + filename;
      var put := Upload.PutObject(Upload.Bucket, filePath, file.body, ContentType(file), "3600", false);
      match env.replies.put
      case Refused(e) => Attempt([put], Notice(OrElse(e.message, DefaultFailure), ErrorNotice), false)
      case Granted(storedPath) =>
        var sign := Upload.SignUrl(Upload.Bucket, filePath, 60 * 60 * 24 * 7);
        match env.replies.sign
        case Refused(e) => Attempt([put, sign], Notice(OrElse(e.message, DefaultFailure), ErrorNotice), false)
        case Granted(url) =>
          Attempt([put, sign, Upload.InsertImage(env.userId.value, storedPath, filename, url)],
                  Notice(Uploaded, SuccessNotice), true)
  }

  /** An oversized file is refused with its size in the message before anything else happens. */
  lemma OversizeRefusedFirst(file: File, env: Env)
    requires file.size > MaxSize
    ensures UploadFile(file, env) == Attempt([], Notice(TooLargeMessage(file.size), ErrorNotice), false)
    ensures Hundredths(file.size) >= 200
  {
  }

  /** Signed out, nothing reaches storage. */
  lemma SignedOutUploadsNothing(file: File, env: Env)
    requires file.size <= MaxSize && env.userId.None?
    ensures UploadFile(file, env) == Attempt([], Notice(NotAuthenticated, ErrorNotice), false)
  {
  }

  /** Signed in, the file goes to the same place the desktop app would put a screenshot taken at
      that instant, and the upload succeeds iff storing and signing both succeed. */
  lemma UploadTarget(file: File, env: Env)
    requires file.size <= MaxSize && env.userId.Some?
    ensures var a := UploadFile(file, env);
      |a.calls| >= 1 &&
      a.calls[0] == Upload.PutObject(Upload.Bucket,
                                     Upload.StoragePath(env.userId.value, Upload.GenerateFilename(Upload.DefaultPrefix, env.iso)),
                                     file.body, ContentType(file), "3600", false)
    ensures UploadFile(file, env).uploaded <==> env.replies.put.Granted? && env.replies.sign.Granted?
    ensures UploadFile(file, env).uploaded <==> UploadFile(file, env).toast == Notice(Uploaded, SuccessNotice)
  {
  }

  /** The per-file step of `handleDrop`. */
  function DropStep(file: File, env: Env): Attempt {
    if StartsWith(file.fileType, "image/") then UploadFile(file, env)
    else Attempt([], Notice(ImagesOnly, WarningNotice), false)
  }

  /** The attempts of a dropped list, in order. */
  function DropAttempts(files: seq<File>, envs: seq<Env>): seq<Attempt>
    requires |files| == |envs|
  {
    seq(|files|, i requires 0 <= i < |files| => DropStep(files[i], envs[i]))
  }

  /** The attempts of a picked list: every file is uploaded. */
  function PickAttempts(files: seq<File>, envs: seq<Env>): seq<Attempt>
    requires |files| == |envs|
  {
    seq(|files|, i requires 0 <= i < |files| => UploadFile(files[i], envs[i]))
  }

  /** The toasts of a run of attempts, one per attempt. */
  function Toasts(attempts: seq<Attempt>): seq<Notice> {
    seq(|attempts|, i requires 0 <= i < |attempts| => attempts[i].toast)
  }

  /** An upload's toast is a success or an error notice, never a warning. */
  lemma UploadToastIsNoWarning(file: File, env: Env)
    ensures UploadFile(file, env).toast.kind != WarningNotice
    ensures UploadFile(file, env).toast.kind == SuccessNotice <==> UploadFile(file, env).uploaded
  {
  }

  /** A drop shows one toast per file, in order: the "image files only" warning sits exactly at the
      positions of the non-image files, and every image file shows its upload's toast. */
  lemma DropToasts(files: seq<File>, envs: seq<Env>)
    requires |files| == |envs|
    ensures |Toasts(DropAttempts(files, envs))| == |files|
    ensures forall i :: 0 <= i < |files| ==>
      (Toasts(DropAttempts(files, envs))[i] == Notice(ImagesOnly, WarningNotice) <==> !StartsWith(files[i].fileType, "image/"))
    ensures forall i :: 0 <= i < |files| && StartsWith(files[i].fileType, "image/") ==>
      Toasts(DropAttempts(files, envs))[i] == UploadFile(files[i], envs[i]).toast
  {
    forall i | 0 <= i < |files| {
      UploadToastIsNoWarning(files[i], envs[i]);
    }
  }

  /** A pick shows one toast per file, in order, each its upload's; none is the drop's warning. */
  lemma PickToasts(files: seq<File>, envs: seq<Env>)
    requires |files| == |envs|
    ensures |Toasts(PickAttempts(files, envs))| == |files|
    ensures forall i :: 0 <= i < |files| ==>
      Toasts(PickAttempts(files, envs))[i] == UploadFile(files[i], envs[i]).toast &&
      Toasts(PickAttempts(files, envs))[i].kind != WarningNotice
  {
    forall i | 0 <= i < |files| {
      UploadToastIsNoWarning(files[i], envs[i]);
    }
  }

  /** The storage calls of a run of attempts, concatenated in order. */
  function Calls(attempts: seq<Attempt>): seq<Upload.StorageCall>
    decreases |attempts|
  {
    if attempts == [] then [] else Calls(attempts[..|attempts| - 1]) + attempts[|attempts| - 1].calls
  }

  /** How many attempts called `onUploadSuccess`. */
  function Successes(attempts: seq<Attempt>): nat
    decreases |attempts|
  {
    if attempts == [] then 0
    else Successes(attempts[..|attempts| - 1]) + (if attempts[|attempts| - 1].uploaded then 1 else 0)
  }

  lemma DropAttemptsSnoc(files: seq<File>, envs: seq<Env>, i: nat)
    requires |files| == |envs| && i < |files|
    ensures DropAttempts(files[..i + 1], envs[..i + 1]) == DropAttempts(files[..i], envs[..i]) + [DropStep(files[i], envs[i])]
  {
  }

  lemma PickAttemptsSnoc(files: seq<File>, envs: seq<Env>, i: nat)
    requires |files| == |envs| && i < |files|
    ensures PickAttempts(files[..i + 1], envs[..i + 1]) == PickAttempts(files[..i], envs[..i]) + [UploadFile(files[i], envs[i])]
  {
  }

  /** One more attempt adds its toast, its calls and its success at the end. */
  lemma RunSnoc(a: seq<Attempt>, x: Attempt)
    ensures Toasts(a + [x]) == Toasts(a) + [x.toast]
    ensures Calls(a + [x]) == Calls(a) + x.calls
    ensures Successes(a + [x]) == Successes(a) + (if x.uploaded then 1 else 0)
  {
    assert (a + [x])[..|a|] == a;
  }

  lemma PickAttemptsAppend(fs: seq<File>, es: seq<Env>, f: File, e: Env)
    requires |fs| == |es|
    ensures PickAttempts(fs + [f], es + [e]) == PickAttempts(fs, es) + [UploadFile(f, e)]
  {
  }

  /** The image files of a dropped list, each with its environment. */
  function Images(files: seq<File>, envs: seq<Env>): (r: (seq<File>, seq<Env>))
    requires |files| == |envs|
    ensures |r.0| == |r.1| <= |files|
    ensures forall f :: f in r.0 ==> f in files && StartsWith(f.fileType, "image/")
    decreases |files|
  {
    if files == [] then ([], [])
    else
      var rest := Images(files[..|files| - 1], envs[..|envs| - 1]);
      var f := files[|files| - 1];
      if StartsWith(f.fileType, "image/") then (rest.0 + [f], rest.1 + [envs[|envs| - 1]]) else rest
  }

  /** The positions of the image files of a list, in increasing order. */
  function ImageIndices(files: seq<File>): (ix: seq<nat>)
    ensures forall k :: 0 <= k < |ix| ==> ix[k] < |files|
    ensures forall j, k :: 0 <= j < k < |ix| ==> ix[j] < ix[k]
    ensures forall i :: 0 <= i < |files| ==> (i in ix <==> StartsWith(files[i].fileType, "image/"))
    decreases |files|
  {
    if files == [] then []
    else
      var n := |files| - 1;
      var rest := ImageIndices(files[..n]);
      assert forall i :: 0 <= i < n ==> files[..n][i] == files[i];
      rest + (if StartsWith(files[n].fileType, "image/") then [n] else [])
  }

  /** `fs`, `es` hold the entries of `files`, `envs` at the positions `ix`, in that order. */
  predicate PickedAt(fs: seq<File>, es: seq<Env>, files: seq<File>, envs: seq<Env>, ix: seq<nat>)
    requires |files| == |envs|
  {
    |fs| == |ix| && |es| == |ix| &&
    forall k :: 0 <= k < |ix| ==> ix[k] < |files| && fs[k] == files[ix[k]] && es[k] == envs[ix[k]]
  }

  /** Appending an entry keeps the earlier picks, and picking it as well adds its position. */
  lemma PickedAtSnoc(fs: seq<File>, es: seq<Env>, files: seq<File>, envs: seq<Env>, ix: seq<nat>,
                     f: File, e: Env)
    requires |files| == |envs| && PickedAt(fs, es, files, envs, ix)
    ensures PickedAt(fs, es, files + [f], envs + [e], ix)
    ensures PickedAt(fs + [f], es + [e], files + [f], envs + [e], ix + [|files|])
  {
    var files', envs' := files + [f], envs + [e];
    forall k | 0 <= k < |ix|
      ensures files'[ix[k]] == files[ix[k]] && envs'[ix[k]] == envs[ix[k]]
    {
    }
  }

  /** The kept files are exactly the image files, in their order in the drop, each paired with
      its own environment. */
  lemma {:induction false} ImagesByIndex(files: seq<File>, envs: seq<Env>)
    requires |files| == |envs|
    ensures var (fs, es) := Images(files, envs);
      var ix := ImageIndices(files);
      |fs| == |ix| &&
      forall k :: 0 <= k < |ix| ==> fs[k] == files[ix[k]] && es[k] == envs[ix[k]]
    decreases |files|
  {
    PickedImages(files, envs);
  }

  lemma {:induction false} PickedImages(files: seq<File>, envs: seq<Env>)
    requires |files| == |envs|
    ensures PickedAt(Images(files, envs).0, Images(files, envs).1, files, envs, ImageIndices(files))
    decreases |files|
  {
    if files != [] {
      var n := |files| - 1;
      var pf, pe := files[..n], envs[..n];
      PickedImages(pf, pe);
      var rest := Images(pf, pe);
      PickedAtSnoc(rest.0, rest.1, pf, pe, ImageIndices(pf), files[n], envs[n]);
      assert pf + [files[n]] == files;
      assert pe + [envs[n]] == envs;
    }
  }

  /** Dropping a list touches storage and `onUploadSuccess` exactly as picking only its images would. */
  lemma {:induction false} DropIsPickOfImages(files: seq<File>, envs: seq<Env>)
    requires |files| == |envs|
    ensures var (fs, es) := Images(files, envs);
      Calls(DropAttempts(files, envs)) == Calls(PickAttempts(fs, es)) &&
      Successes(DropAttempts(files, envs)) == Successes(PickAttempts(fs, es))
    decreases |files|
  {
    if files != [] {
      var n := |files| - 1;
      var f, e := files[n], envs[n];
      var (fs, es) := Images(files[..n], envs[..n]);
      DropIsPickOfImages(files[..n], envs[..n]);
      assert files[..n + 1] == files && envs[..n + 1] == envs;
      DropAttemptsSnoc(files, envs, n);
      RunSnoc(DropAttempts(files[..n], envs[..n]), DropStep(f, e));
      if StartsWith(f.fileType, "image/") {
        PickAttemptsAppend(fs, es, f, e);
        RunSnoc(PickAttempts(fs, es), UploadFile(f, e));
      }
    }
  }

  /** How many times `onUploadSuccess` runs over a run of attempts: once per success when the
      parent passed the callback (`has`), never otherwise. */
  function Callbacks(has: bool, attempts: seq<Attempt>): nat {
    if has then Successes(attempts) else 0
  }

  lemma CallbacksSnoc(has: bool, a: seq<Attempt>, x: Attempt)
    ensures Callbacks(has, a + [x]) == Callbacks(has, a) + (if x.uploaded && has then 1 else 0)
  {
    RunSnoc(a, x);
  }

  /** Whether a list holds an image file. */
  predicate HasImage(files: seq<File>) {
    exists i :: 0 <= i < |files| && StartsWith(files[i].fileType, "image/")
  }

  lemma HasImageSnoc(files: seq<File>, i: nat)
    requires i < |files|
    ensures HasImage(files[..i + 1]) <==> HasImage(files[..i]) || StartsWith(files[i].fileType, "image/")
  {
    if HasImage(files[..i + 1]) {
      var j :| 0 <= j < i + 1 && StartsWith(files[..i + 1][j].fileType, "image/");
      if j < i {
        assert files[..i][j] == files[..i + 1][j];
      }
    }
    if HasImage(files[..i]) {
      var j :| 0 <= j < i && StartsWith(files[..i][j].fileType, "image/");
      assert files[..i + 1][j] == files[..i][j];
    }
    if StartsWith(files[i].fileType, "image/") {
      assert files[..i + 1][i] == files[i];
    }
  }

  /** The drop zone. `toasts` and `calls` are what it has shown and asked of storage so far;
      `successCalls` counts the calls of the optional `onUploadSuccess` callback, which only
      happen when the parent passed one. */
  class DropZone {
    const hasOnUploadSuccess: bool
    var isDragging: bool
    var isUploading: bool
    var toasts: seq<Notice>
    var calls: seq<Upload.StorageCall>
    var successCalls: nat

    constructor (hasOnUploadSuccess: bool)
      ensures this.hasOnUploadSuccess == hasOnUploadSuccess
      ensures !isDragging && !isUploading && toasts == [] && calls == [] && successCalls == 0
    {
      this.hasOnUploadSuccess := hasOnUploadSuccess;
      isDragging, isUploading, toasts, calls, successCalls := false, false, [], [], 0;
    }

    method HandleDragOver()
      modifies this`isDragging
      ensures isDragging
    {
      isDragging := true;
    }

    method HandleDragLeave()
      modifies this`isDragging
      ensures !isDragging
    {
      isDragging := false;
    }

    /** Records one attempt. An `uploadFile` call (`upload`) resets `isUploading` in its `finally`,
        whatever happened; the drop's warning for a non-image leaves it alone. */
    method Record(a: Attempt, upload: bool)
      modifies this`isUploading, this`toasts, this`calls, this`successCalls
      ensures isUploading == (if upload then false else old(isUploading))
      ensures toasts == old(toasts) + [a.toast] && calls == old(calls) + a.calls
      ensures successCalls == old(successCalls) + (if a.uploaded && hasOnUploadSuccess then 1 else 0)
    {
      if upload && a.calls != [] {
        isUploading := true;
      }
      calls := calls + a.calls;
      toasts := toasts + [a.toast];
      if a.uploaded && hasOnUploadSuccess {
        successCalls := successCalls + 1;
      }
      if upload {
        isUploading := false;
      }
    }

    /** `handleDrop`: the files in order, non-images answered with a warning. */
    method HandleDrop(files: seq<File>, envs: seq<Env>)
      requires |files| == |envs|
      modifies this`isDragging, this`isUploading, this`toasts, this`calls, this`successCalls
      ensures !isDragging
      ensures HasImage(files) ==> !isUploading
      ensures !HasImage(files) ==> isUploading == old(isUploading)
      ensures toasts == old(toasts) + Toasts(DropAttempts(files, envs))
      ensures calls == old(calls) + Calls(DropAttempts(files, envs))
      ensures successCalls == old(successCalls) + Callbacks(hasOnUploadSuccess, DropAttempts(files, envs))
    {
      isDragging := false;
      for i := 0 to |files|
        invariant !isDragging
        invariant HasImage(files[..i]) ==> !isUploading
        invariant !HasImage(files[..i]) ==> isUploading == old(isUploading)
        invariant toasts == old(toasts) + Toasts(DropAttempts(files[..i], envs[..i]))
        invariant calls == old(calls) + Calls(DropAttempts(files[..i], envs[..i]))
        invariant successCalls == old(successCalls) + Callbacks(hasOnUploadSuccess, DropAttempts(files[..i], envs[..i]))
      {
        var a := DropStep(files[i], envs[i]);
        ghost var done := DropAttempts(files[..i], envs[..i]);
        Record(a, StartsWith(files[i].fileType, "image/"));
        HasImageSnoc(files, i);
        DropAttemptsSnoc(files, envs, i);
        RunSnoc(done, a);
        CallbacksSnoc(hasOnUploadSuccess, done, a);
      }
      assert files[..|files|] == files && envs[..|envs|] == envs;
    }

    /** `handleFileSelect`: every picked file is uploaded, in order. */
    method HandleFileSelect(files: seq<File>, envs: seq<Env>)
      requires |files| == |envs|
      modifies this`isUploading, this`toasts, this`calls, this`successCalls
      ensures files != [] ==> !isUploading
      ensures files == [] ==> isUploading == old(isUploading)
      ensures toasts == old(toasts) + Toasts(PickAttempts(files, envs))
      ensures calls == old(calls) + Calls(PickAttempts(files, envs))
      ensures successCalls == old(successCalls) + Callbacks(hasOnUploadSuccess, PickAttempts(files, envs))
    {
      for i := 0 to |files|
        invariant i > 0 ==> !isUploading
        invariant i == 0 ==> isUploading == old(isUploading)
        invariant toasts == old(toasts) + Toasts(PickAttempts(files[..i], envs[..i]))
        invariant calls == old(calls) + Calls(PickAttempts(files[..i], envs[..i]))
        invariant successCalls == old(successCalls) + Callbacks(hasOnUploadSuccess, PickAttempts(files[..i], envs[..i]))
      {
        var a := UploadFile(files[i], envs[i]);
        ghost var done := PickAttempts(files[..i], envs[..i]);
        Record(a, true);
        PickAttemptsSnoc(files, envs, i);
        RunSnoc(done, a);
        CallbacksSnoc(hasOnUploadSuccess, done, a);
      }
      assert files[..|files|] == files && envs[..|envs|] == envs;
    }
  }
}
