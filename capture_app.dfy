/** The capture window: choose a screen or window, annotate its image, then copy, save or upload
    the result. The desktop bridge is an oracle; what the window asks of it is an effect list. */
module CaptureApp {
  import opened Common
  import Upload

  /** A capturable screen or window; `thumbnail` is the data URL of its captured image. */
  datatype Source = Source(id: string, name: string, thumbnail: string)

  /** `sources.filter(s => s.id.startsWith(prefix))` */
  function WithPrefix(sources: seq<Source>, prefix: string): seq<Source>
    decreases |sources|
  {
    if sources == [] then []
    else (if StartsWith(sources[0].id, prefix) then [sources[0]] else []) + WithPrefix(sources[1..], prefix)
  }

  function Screens(sources: seq<Source>): seq<Source> {
    WithPrefix(sources, "screen")
  }

  function Windows(sources: seq<Source>): seq<Source> {
    WithPrefix(sources, "window")
  }

  /** The filter keeps exactly the sources whose id has the prefix. */
  lemma {:induction false} WithPrefixMembers(sources: seq<Source>, prefix: string)
    ensures forall x :: x in WithPrefix(sources, prefix) <==> x in sources && StartsWith(x.id, prefix)
    decreases |sources|
  {
    if sources != [] {
      WithPrefixMembers(sources[1..], prefix);
      assert sources == [sources[0]] + sources[1..];
    }
  }

  /** The filter keeps the original order: it distributes over concatenation. */
  lemma {:induction false} WithPrefixAppend(a: seq<Source>, b: seq<Source>, prefix: string)
    ensures WithPrefix(a + b, prefix) == WithPrefix(a, prefix) + WithPrefix(b, prefix)
    decreases |a|
  {
    if a == [] {
      assert a + b == b;
    } else {
      var c := a + b;
      assert c[0] == a[0] && c[1..] == a[1..] + b;
      WithPrefixAppend(a[1..], b, prefix);
      var head := if StartsWith(a[0].id, prefix) then [a[0]] else [];
      assert WithPrefix(c, prefix) == head + WithPrefix(c[1..], prefix);
      assert WithPrefix(a, prefix) == head + WithPrefix(a[1..], prefix);
      assert head + (WithPrefix(a[1..], prefix) + WithPrefix(b, prefix))
          == (head + WithPrefix(a[1..], prefix)) + WithPrefix(b, prefix);
    }
  }

  lemma ScreensAndWindows(sources: seq<Source>)
    ensures forall x :: x in Screens(sources) <==> x in sources && StartsWith(x.id, "screen")
    ensures forall x :: x in Windows(sources) <==> x in sources && StartsWith(x.id, "window")
    ensures forall x :: !(x in Screens(sources) && x in Windows(sources))
  {
    WithPrefixMembers(sources, "screen");
    WithPrefixMembers(sources, "window");
  }

  const MaxListedWindows: nat := 12

  /** `windows.slice(0, 12)` */
  function ListedWindows(sources: seq<Source>): seq<Source> {
    var w := Windows(sources);
    if |w| <= MaxListedWindows then w else w[..MaxListedWindows]
  }

  lemma ListedWindowsAreFirst12(sources: seq<Source>)
    ensures var l := ListedWindows(sources);
      |l| == (if |Windows(sources)| < 12 then |Windows(sources)| else 12) &&
      l == Windows(sources)[..|l|]
  {
  }

  /** The capture window's state. */
  datatype CaptureState = CaptureState(
    sources: seq<Source>,
    selected: Option<Source>,
    isAnnotating: bool,
    capturedImage: Option<string>,
    pendingBlob: Option<Blob>,
    showEmailPrompt: bool)

  const Initial := CaptureState([], None, false, None, None, false)

  /** `handleSourceSelect` */
  function SelectSource(s: CaptureState, src: Source): CaptureState {
    s.(selected := Some(src), capturedImage := Some(src.thumbnail), isAnnotating := true)
  }

  predicate ShouldAutoSelect(sources: seq<Source>, selected: Option<Source>) {
    |Screens(sources)| == 1 && selected.None?
  }

  /** The source list arrives, and the effect on it selects the only screen when nothing is
      selected yet. */
  function ReceiveSources(s: CaptureState, sources: seq<Source>): CaptureState {
    var s1 := s.(sources := sources);
    if ShouldAutoSelect(sources, s.selected) then SelectSource(s1, Screens(sources)[0]) else s1
  }

  lemma AutoSelectOnlyScreen(s: CaptureState, sources: seq<Source>)
    ensures ShouldAutoSelect(sources, s.selected) ==>
      var r := ReceiveSources(s, sources);
      r.selected == Some(Screens(sources)[0]) && r.isAnnotating && r.capturedImage == Some(Screens(sources)[0].thumbnail) &&
      StartsWith(r.selected.value.id, "screen") && r.selected.value in sources
    ensures !ShouldAutoSelect(sources, s.selected) ==> ReceiveSources(s, sources) == s.(sources := sources)
  {
    ScreensAndWindows(sources);
  }

  /** What the window renders. */
  datatype View =
    | Picker(screens: seq<Source>, windows: seq<Source>)
    | Annotating(image: string, emailPrompt: bool)
    | Preparing

  function ViewOf(s: CaptureState): View {
    if !s.isAnnotating && |s.sources| > 1 then Picker(Screens(s.sources), ListedWindows(s.sources))
    else if s.isAnnotating && s.capturedImage.Some? then Annotating(s.capturedImage.value, s.showEmailPrompt)
    else Preparing
  }

  lemma PickerCondition(s: CaptureState)
    ensures ViewOf(s).Picker? <==> !s.isAnnotating && |s.sources| > 1
    ensures ViewOf(s).Picker? ==> |ViewOf(s).windows| <= MaxListedWindows
  {
  }

  /** Choosing a source always leads to the annotation editor on its thumbnail. */
  lemma SelectedSourceIsAnnotated(s: CaptureState, src: Source)
    ensures ViewOf(SelectSource(s, src)) == Annotating(src.thumbnail, s.showEmailPrompt)
  {
  }

  /** The buttons of the action menu. */
  datatype MenuButton = CopyButton | SaveButton | UploadButton | CancelButton

  /** `showActionMenu` resolves with the clicked button's action, or null for cancel. */
  function MenuResult(b: MenuButton): Option<string> {
    match b
    case CopyButton => Some("copy")
    case SaveButton => Some("save")
    case UploadButton => Some("upload")
    case CancelButton => None
  }

  /** What the window asks of the desktop bridge and the backend. */
  datatype Effect =
    | CopyImage(image: Blob)
    | SaveImage(image: Blob, filename: string)
    | CopyText(text: string)
    | Notify(notice: Notice)
    | Storage(call: Upload.StorageCall)
    | CloseWindow
    | CloseWindowLater

  /** `handleSave` once the menu resolved with `action`. `bridge` is how the awaited desktop call
      of a copy or a save settled, `savedPath` what a resolved save dialog returned and `iso` the
      current instant. A rejected bridge call escapes the `try`, which only covers starting the
      read, so it stops the handler with no notice and no close. */
  function SaveOutcome(s: CaptureState, action: Option<string>, blob: Blob, iso: string,
                       bridge: Outcome, savedPath: Option<string>)
    : (CaptureState, seq<Effect>)
  {
    if action == Some("copy") then
      if bridge.Failed? then (s, [CopyImage(blob)])
      else (s, [CopyImage(blob), Notify(Notice("Screenshot copied to clipboard!", SuccessNotice)), CloseWindowLater])
    else if action == Some("save") then
      var filename := Upload.GenerateFilename(Upload.DefaultPrefix, iso);
      if bridge.Failed? then (s, [SaveImage(blob, filename)])
      else
        (s, [SaveImage(blob, filename)]
            + (if Truthy(savedPath) then [Notify(Notice("Saved to " + savedPath.value, SuccessNotice))] else [])
            + [CloseWindowLater])
    else if action == Some("upload") then
      (s.(pendingBlob := Some(blob), showEmailPrompt := true), [])
    else
      (s, [CloseWindowLater])
  }

  /** Upload keeps the window open and waits for sign-in with the blob pending. Every other
      choice leaves the state alone; it schedules the close once, last, unless the copy or save
      it asked for was rejected, in which case the request is the only effect. */
  lemma SaveBranches(s: CaptureState, action: Option<string>, blob: Blob, iso: string,
                     bridge: Outcome, savedPath: Option<string>)
    ensures var (r, fx) := SaveOutcome(s, action, blob, iso, bridge, savedPath);
      action == Some("upload") ==>
        r == s.(pendingBlob := Some(blob), showEmailPrompt := true) && fx == []
    ensures var (r, fx) := SaveOutcome(s, action, blob, iso, bridge, savedPath);
      action != Some("upload") ==> r == s
    ensures var (r, fx) := SaveOutcome(s, action, blob, iso, bridge, savedPath);
      (CloseWindowLater in fx <==> action != Some("upload") && (action in {Some("copy"), Some("save")} ==> bridge.Done?))
    ensures var (r, fx) := SaveOutcome(s, action, blob, iso, bridge, savedPath);
      CloseWindowLater in fx ==> fx[|fx| - 1] == CloseWindowLater && CloseWindowLater !in fx[..|fx| - 1]
    ensures var (r, fx) := SaveOutcome(s, action, blob, iso, bridge, savedPath);
      action == Some("copy") ==> fx[0] == CopyImage(blob) && (bridge.Failed? ==> fx == [CopyImage(blob)])
    ensures var (r, fx) := SaveOutcome(s, action, blob, iso, bridge, savedPath);
      var request := SaveImage(blob, Upload.GenerateFilename("snipt", iso));
      action == Some("save") ==> fx[0] == request && (bridge.Failed? ==> fx == [request])
  {
  }

  /** Each button of the menu leads `handleSave` into its own branch: copy, save and upload make
      their requests to the bridge, and cancel only schedules the close. */
  lemma MenuDecidesSave(s: CaptureState, b: MenuButton, blob: Blob, iso: string, bridge: Outcome, savedPath: Option<string>)
    ensures var (r, fx) := SaveOutcome(s, MenuResult(b), blob, iso, bridge, savedPath);
      (b == CopyButton <==> fx != [] && fx[0] == CopyImage(blob)) &&
      (b == SaveButton <==> fx != [] && fx[0].SaveImage?) &&
      (b == UploadButton <==> r.showEmailPrompt && r.pendingBlob == Some(blob) && fx == []) &&
      (b == CancelButton ==> r == s && fx == [CloseWindowLater])
  {
  }

  /** `handleUploadSuccess`: after sign-in, uploads the pending blob and copies its link.
      `copied` is how the awaited clipboard write settled; its rejection lands in the `catch`
      like a failed upload. */
  function UploadSuccessOutcome(s: CaptureState, userId: Option<string>, iso: string, replies: Upload.StorageReplies,
                                copied: Outcome)
    : (CaptureState, seq<Effect>)
  {
    var done := s.(showEmailPrompt := false, pendingBlob := None);
    if s.pendingBlob.None? then (done, [CloseWindowLater])
    else
      var run := Upload.UploadScreenshotToCloud(userId, s.pendingBlob.value, iso, replies);
      var calls := StorageEffects(run.calls);
      match run.result
      case Rejected(e) => (s, calls + [Notify(Notice(OrElse(e.message, "Upload failed"), ErrorNotice))])
      case Uploaded(u) =>
        match copied
        case Failed(m) => (s, calls + [CopyText(u.shareableLink), Notify(Notice(OrElse(m, "Upload failed"), ErrorNotice))])
        case Done =>
          (done, calls + [CopyText(u.shareableLink), Notify(Notice("✓ Uploaded! Link copied to clipboard", SuccessNotice)),
                          CloseWindowLater])
  }

  function StorageEffects(calls: seq<Upload.StorageCall>): (fx: seq<Effect>)
    ensures |fx| == |calls|
    ensures forall i :: 0 <= i < |calls| ==> fx[i] == Storage(calls[i])
    decreases |calls|
  {
    if calls == [] then [] else [Storage(calls[0])] + StorageEffects(calls[1..])
  }

  /** A failed upload, or a failed copy of its link, leaves the prompt up and the blob pending, so
      it can be retried, and shows an error notice instead of closing; an upload whose link was
      copied clears both and closes. */
  lemma UploadSuccessOutcomes(s: CaptureState, userId: Option<string>, iso: string, replies: Upload.StorageReplies,
                              copied: Outcome)
    requires s.pendingBlob.Some?
    ensures var run := Upload.UploadScreenshotToCloud(userId, s.pendingBlob.value, iso, replies);
      var (r, fx) := UploadSuccessOutcome(s, userId, iso, replies, copied);
      (run.result.Rejected? ==>
         r == s && CloseWindowLater !in fx && fx[|fx| - 1].Notify? && fx[|fx| - 1].notice.kind == ErrorNotice) &&
      (run.result.Uploaded? ==> CopyText(run.result.upload.shareableLink) in fx) &&
      (run.result.Uploaded? && copied.Failed? ==>
         r == s && CloseWindowLater !in fx && fx[|fx| - 1] == Notify(Notice(OrElse(copied.message, "Upload failed"), ErrorNotice))) &&
      (run.result.Uploaded? && copied.Done? ==>
         r.pendingBlob.None? && !r.showEmailPrompt && fx[|fx| - 1] == CloseWindowLater)
  {
  }

  /** `handleUploadCancel` */
  function UploadCancelled(s: CaptureState): CaptureState {
    s.(showEmailPrompt := false, pendingBlob := None)
  }

  /** Cancelling the sign-in prompt after choosing upload returns to the state before the choice,
      except for what the choice itself cleared. */
  lemma UploadThenCancel(s: CaptureState, blob: Blob, iso: string, savedPath: Option<string>)
    ensures UploadCancelled(SaveOutcome(s, Some("upload"), blob, iso, Done, savedPath).0)
            == s.(showEmailPrompt := false, pendingBlob := None)
  {
  }

  /** The capture window component; `effects` lists every request it made, in order. */
  class CaptureWindow {
    var sources: seq<Source>
    var selected: Option<Source>
    var isAnnotating: bool
    var capturedImage: Option<string>
    var pendingBlob: Option<Blob>
    var showEmailPrompt: bool
    var effects: seq<Effect>

    function State(): CaptureState
      reads this
    {
      CaptureState(sources, selected, isAnnotating, capturedImage, pendingBlob, showEmailPrompt)
    }

    constructor ()
      ensures State() == Initial && effects == []
    {
      sources, selected, isAnnotating, capturedImage := [], None, false, None;
      pendingBlob, showEmailPrompt, effects := None, false, [];
    }

    method HandleSourceSelect(src: Source)
      modifies this
      ensures State() == SelectSource(old(State()), src) && effects == old(effects)
    {
      selected := Some(src);
      capturedImage := Some(src.thumbnail);
      isAnnotating := true;
    }

    /** `onSourcesReady`, followed by the auto-select effect. */
    method SourcesReady(list: seq<Source>)
      modifies this
      ensures State() == ReceiveSources(old(State()), list) && effects == old(effects)
    {
      sources := list;
      var screens := Screens(list);
      if |screens| == 1 && selected.None? {
        HandleSourceSelect(screens[0]);
      }
    }

    method HandleCancel()
      modifies this
      ensures State() == old(State()) && effects == old(effects) + [CloseWindow]
    {
      effects := effects + [CloseWindow];
    }

    method HandleSave(action: Option<string>, blob: Blob, iso: string, bridge: Outcome, savedPath: Option<string>)
      modifies this
      ensures State() == SaveOutcome(old(State()), action, blob, iso, bridge, savedPath).0
      ensures effects == old(effects) + SaveOutcome(old(State()), action, blob, iso, bridge, savedPath).1
    {
      if action == Some("copy") {
        effects := effects + [CopyImage(blob)];
        if bridge.Failed? {
          return;
        }
        effects := effects + [Notify(Notice("Screenshot copied to clipboard!", SuccessNotice))];
      } else if action == Some("save") {
        var filename := Upload.GenerateFilename(Upload.DefaultPrefix, iso);
        effects := effects + [SaveImage(blob, filename)];
        if bridge.Failed? {
          return;
        }
        if Truthy(savedPath) {
          effects := effects + [Notify(Notice("Saved to " + savedPath.value, SuccessNotice))];
        }
      } else if action == Some("upload") {
        pendingBlob := Some(blob);
        showEmailPrompt := true;
        return;
      }
      effects := effects + [CloseWindowLater];
    }

    method HandleUploadSuccess(userId: Option<string>, iso: string, replies: Upload.StorageReplies, copied: Outcome)
      modifies this
      ensures State() == UploadSuccessOutcome(old(State()), userId, iso, replies, copied).0
      ensures effects == old(effects) + UploadSuccessOutcome(old(State()), userId, iso, replies, copied).1
    {
      if pendingBlob.Some? {
        var run := Upload.UploadScreenshotToCloud(userId, pendingBlob.value, iso, replies);
        effects := effects + StorageEffects(run.calls);
        if run.result.Rejected? {
          effects := effects + [Notify(Notice(OrElse(run.result.error.message, "Upload failed"), ErrorNotice))];
          return;
        }
        effects := effects + [CopyText(run.result.upload.shareableLink)];
        if copied.Failed? {
          effects := effects + [Notify(Notice(OrElse(copied.message, "Upload failed"), ErrorNotice))];
          return;
        }
        effects := effects + [Notify(Notice("✓ Uploaded! Link copied to clipboard", SuccessNotice))];
      }
      showEmailPrompt := false;
      pendingBlob := None;
      effects := effects + [CloseWindowLater];
    }

    method HandleUploadCancel()
      modifies this
      ensures State() == UploadCancelled(old(State())) && effects == old(effects)
    {
      showEmailPrompt := false;
      pendingBlob := None;
    }
  }
}
