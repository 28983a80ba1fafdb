/**
 * The upload widget of FileUpload.js: the reducer of its state, the upload
 * handler's sequence of effects, and the extension shown for a file name.
 *
 * The upload request is a parameter (what it resolves to or rejects with);
 * the simulated progress timer is modelled by how many of its ticks fall
 * before and after the request settles.
 */
module FileUpload {
  import opened Wrappers
  import opened Text

  // ---------------------------------------------------------------------------
  // fileUploadReducer
  // ---------------------------------------------------------------------------

  /** A browser `File`; the reducer only stores it. */
  datatype FileRef = FileRef(name: string)

  datatype Status = Idle | Dragging | FileSelected | Uploading | Success | Failed

  datatype UploadState = UploadState(selectedFile: Option<FileRef>, isDragging: bool,
                                     uploadProgress: int, status: Status)

  const INITIAL_STATE := UploadState(None, false, 0, Idle)

  datatype Action =
    | DragEnter
    | DragLeave
    | SelectFile(file: FileRef)
    | UploadStart
    | SetProgress(progress: int)
    | UploadComplete
    | UploadError
    | Reset
    | Unknown(actionType: string)

  /** `fileUploadReducer(state, action)`: the new state, or the error thrown for
      an action type it does not handle. */
  function Reduce(s: UploadState, a: Action): (r: Result<UploadState, string>)
    ensures r.Err? <==> a.Unknown?
    ensures a.Unknown? ==> r == Err("Unhandled action type: " + a.actionType)
    ensures r.Ok? && !a.SelectFile? && !a.Reset? ==> r.value.selectedFile == s.selectedFile
    ensures r.Ok? && !a.DragEnter? && !a.DragLeave? && !a.SelectFile? && !a.Reset? ==>
              r.value.isDragging == s.isDragging
  {
    match a
    case DragEnter => Ok(s.(isDragging := true, status := Dragging))
    case DragLeave => Ok(s.(isDragging := false, status := if s.selectedFile.Some? then FileSelected else Idle))
    case SelectFile(f) => Ok(s.(selectedFile := Some(f), isDragging := false, status := FileSelected, uploadProgress := 0))
    case UploadStart => Ok(s.(status := Uploading, uploadProgress := 0))
    case SetProgress(p) => Ok(s.(uploadProgress := p))
    case UploadComplete => Ok(s.(status := Success, uploadProgress := 100))
    case UploadError => Ok(s.(status := Failed, uploadProgress := 0))
    case Reset => Ok(INITIAL_STATE)
    case Unknown(t) => Err("Unhandled action type: " + t)
  }

  /** What each handled action does, field by field. */
  lemma ReduceEffects(s: UploadState, f: FileRef, p: int)
    ensures Reduce(s, DragEnter) == Ok(UploadState(s.selectedFile, true, s.uploadProgress, Dragging))
    ensures Reduce(s, DragLeave) ==
            Ok(UploadState(s.selectedFile, false, s.uploadProgress,
                           if s.selectedFile.Some? then FileSelected else Idle))
    ensures Reduce(s, SelectFile(f)) == Ok(UploadState(Some(f), false, 0, FileSelected))
    ensures Reduce(s, UploadStart) == Ok(UploadState(s.selectedFile, s.isDragging, 0, Uploading))
    ensures Reduce(s, UploadComplete) == Ok(UploadState(s.selectedFile, s.isDragging, 100, Success))
    ensures Reduce(s, UploadError) == Ok(UploadState(s.selectedFile, s.isDragging, 0, Failed))
    ensures Reduce(s, SetProgress(p)) == Ok(s.(uploadProgress := p))
    ensures Reduce(s, Reset) == Ok(INITIAL_STATE)
  {
  }

  /** The status agrees with the rest of the state: "idle" means no file, "file
      selected" means a file, "dragging" means the drag flag is set. */
  predicate Consistent(s: UploadState)
  {
    && (s.status == Idle ==> s.selectedFile.None?)
    && (s.status == FileSelected ==> s.selectedFile.Some?)
    && (s.status == Dragging ==> s.isDragging)
  }

  /** Every handled action keeps the state consistent. */
  lemma ReduceKeepsConsistent(s: UploadState, a: Action)
    requires Consistent(s) && !a.Unknown?
    ensures Reduce(s, a).Ok? && Consistent(Reduce(s, a).value)
  {
  }

  /** Applying dispatched actions one after the other. */
  function ReduceAll(s: UploadState, actions: seq<Action>): (r: Result<UploadState, string>)
    ensures r.Err? <==> exists i :: 0 <= i < |actions| && actions[i].Unknown?
    decreases |actions|
  {
    if actions == [] then Ok(s)
    else
      match Reduce(s, actions[0])
      case Err(e) => Err(e)
      case Ok(s1) =>
        var r := ReduceAll(s1, actions[1..]);
        assert forall i :: 1 <= i < |actions| ==> actions[i] == actions[1..][i - 1];
        r
  }

  // ---------------------------------------------------------------------------
  // handleUpload
  // ---------------------------------------------------------------------------

  const NO_FILE_MESSAGE := "Please select a file first."
  const DEFAULT_SUCCESS := "File processed successfully!"
  const DEFAULT_FAILURE := "Failed to upload file"

  /** What the handler does, in order: set the parent's uploading flag, dispatch
      to the reducer, or report to the parent. */
  datatype Effect = SetUploading(on: bool) | Dispatch(action: Action) | ReportSuccess(message: string) |
                    ReportError(message: string)

  /** What `uploadFile(selectedFile)` settles to: the `status` of the result
      (None when it is missing or empty), or the rejection's `message` (None when
      it is missing or empty). */
  datatype UploadOutcome = Uploaded(status: Option<string>) | Rejected(message: Option<string>)

  function OrDefault(o: Option<string>, d: string): string
  {
    if o.Some? && o.value != "" then o.value else d
  }

  /** `handleUpload`: with no file, only the error report; otherwise the start,
      then completion, the cleared flag, and after the delay the success report
      and a reset; or the error, its report and the cleared flag. */
  function HandleUpload(s: UploadState, outcome: UploadOutcome): (effects: seq<Effect>)
    ensures s.selectedFile.None? ==> effects == [ReportError(NO_FILE_MESSAGE)]
    ensures s.selectedFile.Some? ==> |effects| >= 2 && effects[..2] == [SetUploading(true), Dispatch(UploadStart)]
  {
    if s.selectedFile.None? then [ReportError(NO_FILE_MESSAGE)]
    else
      [SetUploading(true), Dispatch(UploadStart)] +
      match outcome
      case Uploaded(status) =>
        [Dispatch(UploadComplete), SetUploading(false), ReportSuccess(OrDefault(status, DEFAULT_SUCCESS)),
         Dispatch(Reset)]
      case Rejected(message) =>
        [Dispatch(UploadError), ReportError(OrDefault(message, DEFAULT_FAILURE)), SetUploading(false)]
  }

  /** The actions among the effects, in order. */
  function Dispatched(effects: seq<Effect>): (actions: seq<Action>)
    ensures |actions| <= |effects|
  {
    if effects == [] then []
    else (if effects[0].Dispatch? then [effects[0].action] else []) + Dispatched(effects[1..])
  }

  lemma {:induction false} DispatchedAppend(a: seq<Effect>, b: seq<Effect>)
    ensures Dispatched(a + b) == Dispatched(a) + Dispatched(b)
  {
    if a == [] {
      assert a + b == b;
    } else {
      var head := if a[0].Dispatch? then [a[0].action] else [];
      assert (a + b)[0] == a[0];
      assert (a + b)[1..] == a[1..] + b;
      assert Dispatched(a + b) == head + Dispatched(a[1..] + b);
      DispatchedAppend(a[1..], b);
      assert head + (Dispatched(a[1..]) + Dispatched(b)) == (head + Dispatched(a[1..])) + Dispatched(b);
    }
  }

  lemma DispatchedOne(e: Effect, rest: seq<Effect>)
    ensures Dispatched([e] + rest) == (if e.Dispatch? then [e.action] else []) + Dispatched(rest)
  {
    assert ([e] + rest)[1..] == rest;
  }

  /** Without a selected file nothing is dispatched. */
  lemma NoFileDispatchesNothing(s: UploadState, outcome: UploadOutcome)
    requires s.selectedFile.None?
    ensures Dispatched(HandleUpload(s, outcome)) == []
  {
  }

  /** With a selected file, the handler dispatches the start, then either the
      completion and a reset or the error. */
  lemma HandleUploadDispatches(s: UploadState, outcome: UploadOutcome)
    requires s.selectedFile.Some?
    ensures outcome.Uploaded? ==> Dispatched(HandleUpload(s, outcome)) == [UploadStart, UploadComplete, Reset]
    ensures outcome.Rejected? ==> Dispatched(HandleUpload(s, outcome)) == [UploadStart, UploadError]
  {
    var start := [SetUploading(true), Dispatch(UploadStart)];
    DispatchedOne(Dispatch(UploadStart), []);
    DispatchedOne(SetUploading(true), [Dispatch(UploadStart)]);
    match outcome
    case Uploaded(status) =>
      var m := ReportSuccess(OrDefault(status, DEFAULT_SUCCESS));
      DispatchedOne(Dispatch(Reset), []);
      DispatchedOne(m, [Dispatch(Reset)]);
      DispatchedOne(SetUploading(false), [m, Dispatch(Reset)]);
      DispatchedOne(Dispatch(UploadComplete), [SetUploading(false), m, Dispatch(Reset)]);
      DispatchedAppend(start, [Dispatch(UploadComplete), SetUploading(false), m, Dispatch(Reset)]);
    case Rejected(message) =>
      var m := ReportError(OrDefault(message, DEFAULT_FAILURE));
      DispatchedOne(SetUploading(false), []);
      DispatchedOne(m, [SetUploading(false)]);
      DispatchedOne(Dispatch(UploadError), [m, SetUploading(false)]);
      DispatchedAppend(start, [Dispatch(UploadError), m, SetUploading(false)]);
  }

  lemma ReduceAllCons(s: UploadState, a: Action, rest: seq<Action>)
    requires !a.Unknown?
    ensures ReduceAll(s, [a] + rest) == ReduceAll(Reduce(s, a).value, rest)
  {
    assert ([a] + rest)[1..] == rest;
  }

  /** When no tick of the progress timer fires: a successful upload ends back
      at the initial state; a failed one ends in the error status with the file
      still selected and the progress at 0, ready for another try. With the
      timer, `TimerLeaksAfterError` shows how a failure goes on. */
  lemma UploadEndStates(s: UploadState, outcome: UploadOutcome)
    requires s.selectedFile.Some?
    ensures outcome.Uploaded? ==> ReduceAll(s, Dispatched(HandleUpload(s, outcome))) == Ok(INITIAL_STATE)
    ensures outcome.Rejected? ==>
              ReduceAll(s, Dispatched(HandleUpload(s, outcome))) ==
              Ok(UploadState(s.selectedFile, s.isDragging, 0, Failed))
  {
    HandleUploadDispatches(s, outcome);
    var s1 := Reduce(s, UploadStart).value;
    if outcome.Uploaded? {
      var s2 := Reduce(s1, UploadComplete).value;
      ReduceAllCons(s2, Reset, []);
      ReduceAllCons(s1, UploadComplete, [Reset]);
      ReduceAllCons(s, UploadStart, [UploadComplete, Reset]);
    } else {
      ReduceAllCons(s1, UploadError, []);
      ReduceAllCons(s, UploadStart, [UploadError]);
    }
  }

  // ---------------------------------------------------------------------------
  // The simulated progress timer
  // ---------------------------------------------------------------------------

  /** One tick of the progress timer. Its callback reads the progress of the
      render that created the handler, `s.uploadProgress`, not the current one,
      so every tick sets the same value. */
  function Tick(s: UploadState): Action
  {
    SetProgress(s.uploadProgress + 10)
  }

  /** How many of `n` scheduled ticks fire: the callback stops the timer after
      its first tick when the value it reads is at least 90, and never otherwise. */
  function Fired(s: UploadState, n: nat): (k: nat)
    ensures k <= n
    ensures s.uploadProgress < 90 ==> k == n
    ensures s.uploadProgress >= 90 ==> k <= 1 && (n > 0 ==> k == 1)
  {
    if s.uploadProgress >= 90 && n > 1 then 1 else n
  }

  function Ticks(s: UploadState, k: nat): (ticks: seq<Action>)
    ensures |ticks| == k && forall i :: 0 <= i < k ==> ticks[i] == Tick(s)
  {
    seq(k, _ => Tick(s))
  }

  /** The actions of an upload together with its timer: `during` ticks are due
      before the request settles and `after` ticks after it. Success clears the
      timer. A failure clears it only when `clearOnError`. */
  function TimedUpload(s: UploadState, outcome: UploadOutcome, during: nat, after: nat, clearOnError: bool)
    : (actions: seq<Action>)
    ensures |actions| >= 2 && actions[0] == UploadStart
  {
    var before := Fired(s, during);
    [UploadStart] + Ticks(s, before) +
    match outcome
    case Uploaded(_) => [UploadComplete, Reset]
    case Rejected(_) =>
      [UploadError] + (if clearOnError then [] else Ticks(s, Fired(s, during + after) - before))
  }

  /** With no tick due, the timed model dispatches what the handler dispatches. */
  lemma TimedUploadWithoutTicks(s: UploadState, outcome: UploadOutcome, clearOnError: bool)
    requires s.selectedFile.Some?
    ensures TimedUpload(s, outcome, 0, 0, clearOnError) == Dispatched(HandleUpload(s, outcome))
  {
    HandleUploadDispatches(s, outcome);
    assert Ticks(s, 0) == [];
  }

  /** Ticks change the progress only, and all to the same value. */
  lemma {:induction false} TicksSetProgress(s: UploadState, t: UploadState, k: nat)
    ensures ReduceAll(t, Ticks(s, k)) == Ok(if k == 0 then t else t.(uploadProgress := s.uploadProgress + 10))
    decreases k
  {
    if k > 0 {
      var t1 := t.(uploadProgress := s.uploadProgress + 10);
      assert Ticks(s, k) == [Tick(s)] + Ticks(s, k - 1);
      ReduceAllCons(t, Tick(s), Ticks(s, k - 1));
      TicksSetProgress(s, t1, k - 1);
    }
  }

  lemma {:induction false} ReduceAllAppend(t: UploadState, xs: seq<Action>, ys: seq<Action>)
    requires ReduceAll(t, xs).Ok?
    ensures ReduceAll(t, xs + ys) == ReduceAll(ReduceAll(t, xs).value, ys)
    decreases |xs|
  {
    if xs == [] {
      assert xs + ys == ys;
    } else {
      assert (xs + ys)[0] == xs[0];
      assert (xs + ys)[1..] == xs[1..] + ys;
      ReduceAllAppend(Reduce(t, xs[0]).value, xs[1..], ys);
    }
  }

  /** The state while the request is pending: uploading, with the progress at 0
      or, once a tick has fired, at the stale value plus 10. */
  lemma PendingState(s: UploadState, before: nat)
    ensures ReduceAll(s, [UploadStart] + Ticks(s, before)) ==
            Ok(UploadState(s.selectedFile, s.isDragging, if before == 0 then 0 else s.uploadProgress + 10, Uploading))
  {
    TicksSetProgress(s, Reduce(s, UploadStart).value, before);
    ReduceAllCons(s, UploadStart, Ticks(s, before));
  }

  /** A successful upload ends at the initial state, whether or not the timer
      would be cleared on failure. */
  lemma TimedUploadSucceeds(s: UploadState, status: Option<string>, during: nat, after: nat, clearOnError: bool)
    ensures ReduceAll(s, TimedUpload(s, Uploaded(status), during, after, clearOnError)) == Ok(INITIAL_STATE)
  {
    var head := [UploadStart] + Ticks(s, Fired(s, during));
    PendingState(s, Fired(s, during));
    var s2 := ReduceAll(s, head).value;
    ReduceAllCons(Reduce(s2, UploadComplete).value, Reset, []);
    ReduceAllCons(s2, UploadComplete, [Reset]);
    ReduceAllAppend(s, head, [UploadComplete, Reset]);
  }

  /** A failure with `late` ticks after it: the progress is 0 until a late tick
      fires, and then the stale value plus 10. */
  lemma FailedWithLateTicks(s: UploadState, before: nat, late: nat)
    ensures ReduceAll(s, [UploadStart] + Ticks(s, before) + ([UploadError] + Ticks(s, late))) ==
            Ok(UploadState(s.selectedFile, s.isDragging, if late == 0 then 0 else s.uploadProgress + 10, Failed))
  {
    var head := [UploadStart] + Ticks(s, before);
    PendingState(s, before);
    var s2 := ReduceAll(s, head).value;
    TicksSetProgress(s, Reduce(s2, UploadError).value, late);
    ReduceAllCons(s2, UploadError, Ticks(s, late));
    ReduceAllAppend(s, head, [UploadError] + Ticks(s, late));
  }

  /** The timer as written: after a failure it goes on ticking, so once one more
      tick fires the progress is the stale value plus 10 while the status says
      the upload failed. */
  lemma TimerLeaksAfterError(s: UploadState, message: Option<string>, during: nat, after: nat)
    ensures var late := Fired(s, during + after) - Fired(s, during);
            ReduceAll(s, TimedUpload(s, Rejected(message), during, after, false)) ==
            Ok(UploadState(s.selectedFile, s.isDragging, if late == 0 then 0 else s.uploadProgress + 10, Failed))
    ensures s.uploadProgress < 90 && after > 0 ==>
              ReduceAll(s, TimedUpload(s, Rejected(message), during, after, false)) ==
              Ok(UploadState(s.selectedFile, s.isDragging, s.uploadProgress + 10, Failed))
  {
    var before := Fired(s, during);
    var late := Fired(s, during + after) - before;
    assert TimedUpload(s, Rejected(message), during, after, false) ==
           [UploadStart] + Ticks(s, before) + ([UploadError] + Ticks(s, late));
    FailedWithLateTicks(s, before, late);
  }

  /** Clearing the timer on failure too: the failed upload then ends with the
      progress at 0 however many ticks were due. */
  lemma ClearedTimerKeepsErrorState(s: UploadState, message: Option<string>, during: nat, after: nat)
    ensures ReduceAll(s, TimedUpload(s, Rejected(message), during, after, true)) ==
            Ok(UploadState(s.selectedFile, s.isDragging, 0, Failed))
  {
    var head := [UploadStart] + Ticks(s, Fired(s, during));
    PendingState(s, Fired(s, during));
    ReduceAllCons(ReduceAll(s, head).value, UploadError, []);
    assert [UploadError] + [] == [UploadError];
    ReduceAllAppend(s, head, [UploadError]);
  }

  // ---------------------------------------------------------------------------
  // getFileExtension
  // ---------------------------------------------------------------------------

  /** JavaScript strings are shorter than 2^32 code units in every engine. */
  const MAX_JS_LENGTH := 0x1_0000_0000

  /** JavaScript `x >>> 0` on the integers that are exact 32-bit inputs: a
      negative one wraps around to `x + 2^32`. */
  function ToUint32(x: int): (r: nat)
    requires -0x1_0000_0000 <= x < 0x1_0000_0000
    ensures r < 0x1_0000_0000 && r % 0x1_0000_0000 == x % 0x1_0000_0000
  {
    if x < 0 then x + 0x1_0000_0000 else x
  }

  /** JavaScript `s.slice(start)` for a start that is not negative. */
  function SliceFrom(s: string, start: nat): (r: string)
    ensures start >= |s| ==> r == ""
    ensures start < |s| ==> r == s[start..]
  {
    if start >= |s| then "" else s[start..]
  }

  /** `filename.slice((i - 1 >>> 0) + 2).toUpperCase()` for the index `i` of the
      last dot. */
  function ExtensionAfter(filename: string, i: int): (ext: string)
    requires |filename| < MAX_JS_LENGTH && -1 <= i < |filename|
    ensures |ext| < |filename| || filename == ""
  {
    Upper(SliceFrom(filename, ToUint32(i - 1) + 2))
  }

  /** `getFileExtension(filename)`. */
  function GetFileExtension(filename: string): (ext: string)
    requires |filename| < MAX_JS_LENGTH
    ensures '.' !in filename ==> ext == ""
  {
    ExtensionAfterCases(filename, LastIndexOf(filename, '.'));
    ExtensionAfter(filename, LastIndexOf(filename, '.'))
  }

  lemma ExtensionAfterCases(filename: string, i: int)
    requires |filename| < MAX_JS_LENGTH && -1 <= i < |filename|
    ensures i >= 1 ==> ExtensionAfter(filename, i) == Upper(filename[i + 1..])
    ensures i <= 0 ==> ExtensionAfter(filename, i) == ""
  {
    var start := ToUint32(i - 1) + 2;
    if i >= 1 {
      assert start == i + 1;
      assert SliceFrom(filename, start) == filename[i + 1..];
    } else {
      assert start >= |filename|;
      assert SliceFrom(filename, start) == "";
    }
  }

  /** The upper-cased text after the last dot; nothing when there is no dot or
      the only dot starts the name. */
  lemma FileExtensionCases(filename: string)
    requires |filename| < MAX_JS_LENGTH
    ensures var i := LastIndexOf(filename, '.');
            (i >= 1 ==> GetFileExtension(filename) == Upper(filename[i + 1..])) &&
            (i <= 0 ==> GetFileExtension(filename) == "")
  {
    var i := LastIndexOf(filename, '.');
    ExtensionAfterCases(filename, i);
    assert GetFileExtension(filename) == ExtensionAfter(filename, i);
  }

  /** A name `base.ext` with a non-empty base and no dot in `ext` shows `EXT`. */
  lemma ExtensionOfName(base: string, ext: string)
    requires base != "" && '.' !in ext
    requires |base| + 1 + |ext| < MAX_JS_LENGTH
    ensures GetFileExtension(base + "." + ext) == Upper(ext)
  {
    var name := base + "." + ext;
    assert name[|base|] == '.';
    assert forall k :: |base| < k < |name| ==> name[k] == ext[k - |base| - 1];
    assert name[|base| + 1..] == ext;
    FileExtensionCases(name);
  }
}
