/**
 * The live-quiz join screen: typing or scanning a code, the six-character gate, the
 * mock check against the one active quiz, and the guard that handles a scan only once.
 */
module LiveQuiz {
  import opened Wrappers
  import opened JsText
  import opened CodeInput

  const ActiveQuizCode := "QUIZ01"
  const QueryKey := "quiz="

  /** What `handleJoinQuiz` decides for a code. */
  datatype JoinDecision = WrongLength | Accepted(code: string) | NotActive

  /** Length gate first, then the mock lookup, both on the upper-cased code. */
  function CheckQuizCode(code: string): (r: JoinDecision)
    ensures r.WrongLength? <==> |Upper(code)| != CodeLength
    ensures r.Accepted? <==> Upper(code) == ActiveQuizCode
    ensures r.Accepted? ==> r.code == ActiveQuizCode
  {
    var upperCode := Upper(code);
    if |upperCode| != CodeLength then WrongLength
    else if upperCode == ActiveQuizCode then Accepted(upperCode)
    else NotActive
  }

  /** The decision depends on the code only up to letter case. */
  lemma CheckQuizCodeIgnoresCase(a: string, b: string)
    requires Upper(a) == Upper(b)
    ensures CheckQuizCode(a) == CheckQuizCode(b)
  {
  }

  /**
   * The code inside a scanned QR payload: after `quiz=` up to the next `&` (or the
   * next `quiz=`, or the end); otherwise after the last `/`; otherwise the payload.
   */
  function ExtractCode(data: string): (r: string)
    ensures |r| <= |data|
    ensures Includes(data, QueryKey) ==> '&' !in r
    ensures !Includes(data, QueryKey) && '/' in data ==> '/' !in r
  {
    IncludesChar(data, '/');
    assert Includes(data, QueryKey) ==> '&' !in SplitHead(SplitSecond(data, QueryKey), "&") by {
      if Includes(data, QueryKey) {
        IncludesChar(SplitHead(SplitSecond(data, QueryKey), "&"), '&');
      }
    }
    if Includes(data, QueryKey) then SplitHead(SplitSecond(data, QueryKey), "&")
    else if Includes(data, "/") then SplitLast(data, '/')
    else data
  }

  /** A payload with `quiz=`: the code is the slice right after the first `quiz=`,
      holds no `&`, and stops at a `&`, a further `quiz=` or the end. */
  lemma ExtractFromQuery(data: string)
    requires Includes(data, QueryKey)
    ensures var r := ExtractCode(data);
            var start := IndexOf(data, QueryKey).value + |QueryKey|;
            var stop := start + |r|;
            && '&' !in r && !Includes(r, QueryKey)
            && stop <= |data| && r == data[start..stop]
            && (stop == |data| || data[stop] == '&' || OccursAt(data, QueryKey, stop))
            && (forall j :: start <= j < stop ==> !OccursAt(data, QueryKey, j))
  {
    var t := SplitSecond(data, QueryKey);
    var r := SplitHead(t, "&");
    IncludesChar(r, '&');
    var start := IndexOf(data, QueryKey).value + |QueryKey|;
    if Includes(t, "&") {
      assert r == t[..|r|];
      PrefixExcludes(t, |r|, QueryKey);
      assert t[|r|..|r| + 1] == "&";
      assert data[start + |r|] == t[|r|];
    }
  }

  /** A prefix of a text without `pat` has no `pat` either. */
  lemma PrefixExcludes(t: string, n: nat, pat: string)
    requires n <= |t| && !Includes(t, pat)
    ensures !Includes(t[..n], pat)
  {
    IncludesIff(t, pat);
    IncludesIff(t[..n], pat);
    forall j: nat | OccursAt(t[..n], pat, j) ensures OccursAt(t, pat, j) {
      assert t[..n][j..j + |pat|] == t[j..j + |pat|];
    }
  }

  /** A payload without `quiz=` but with `/`: the code is its last path segment. */
  lemma ExtractFromPath(data: string)
    requires !Includes(data, QueryKey) && Includes(data, "/")
    ensures var r := ExtractCode(data);
            '/' !in r && |r| < |data| && data[|data| - |r| - 1] == '/' && r == data[|data| - |r|..]
  {
    IncludesChar(data, '/');
  }

  /** Any other payload is taken as the code itself. */
  lemma ExtractPlain(data: string)
    requires !Includes(data, QueryKey) && '/' !in data
    ensures ExtractCode(data) == data
  {
    IncludesChar(data, '/');
  }

  /** The dialog the screen ends up showing. */
  datatype Dialog = NoDialog | InvalidCode | Joining(quizCode: string) | InvalidQuizCode | CameraPermissionRequired

  /** How `handleOpenScanner` ends. */
  datatype OpenOutcome = Opened | PermissionAlert | Declined | Crashed

  /**
   * `handleOpenScanner` as written. `permission` is the hook's value when the handler
   * was created (`None` while it is still loading, otherwise its `granted` flag) and
   * `requestGranted` what `requestPermission()` resolves to. After a grant on the
   * `!permission` path the code goes on to read `permission.granted` from the same
   * null value, which throws.
   */
  function OpenScannerAsWritten(permission: Option<bool>, requestGranted: bool): (r: OpenOutcome)
    ensures r == Crashed <==> permission.None? && requestGranted
    ensures r == Opened <==> permission == Some(true) || (permission.Some? && requestGranted)
  {
    match permission
    case None => if !requestGranted then PermissionAlert else Crashed
    case Some(granted) => if granted || requestGranted then Opened else Declined
  }

  /** The first tap, with the permission still loading and then granted, throws instead of opening. */
  lemma OpenScannerFirstGrantThrows()
    ensures OpenScannerAsWritten(None, true) == Crashed
    ensures OpenScanner(None, true) == Opened
  {
  }

  /** `handleOpenScanner` as evidently intended: a granted request opens the scanner either way. */
  function OpenScanner(permission: Option<bool>, requestGranted: bool): (r: OpenOutcome)
    ensures r == Opened <==> permission == Some(true) || requestGranted
    ensures r == PermissionAlert <==> permission.None? && !requestGranted
    ensures r != Crashed
  {
    match permission
    case None => if !requestGranted then PermissionAlert else Opened
    case Some(granted) => if granted || requestGranted then Opened else Declined
  }

  /** The two agree whenever the permission had already loaded, or the request was refused. */
  lemma OpenScannerAgrees(permission: Option<bool>, requestGranted: bool)
    requires permission.Some? || !requestGranted
    ensures OpenScannerAsWritten(permission, requestGranted) == OpenScanner(permission, requestGranted)
  {
  }

  function DialogFor(d: JoinDecision): Dialog
  {
    match d
    case WrongLength => InvalidCode
    case Accepted(code) => Joining(code)
    case NotActive => InvalidQuizCode
  }

  class Screen {
    var quizCode: string
    var loading: bool
    var showScanner: bool
    var scanned: bool
    var dialog: Dialog

    constructor ()
      ensures quizCode == "" && !loading && !showScanner && !scanned && dialog == NoDialog
    {
      quizCode := "";
      loading := false;
      showScanner := false;
      scanned := false;
      dialog := NoDialog;
    }

    /** The Join button: enabled only when idle with a six-character code. */
    predicate JoinEnabled()
      reads this
    {
      !loading && |quizCode| == CodeLength
    }

    /** The box only ever holds upper-case text. */
    predicate CodeUpper()
      reads this
    {
      Upper(quizCode) == quizCode
    }

    /** `onChangeText` of the code box. */
    method ChangeText(text: string)
      modifies this
      ensures quizCode == NormalizeCode(text) && CodeUpper()
      ensures loading == old(loading) && showScanner == old(showScanner)
      ensures scanned == old(scanned) && dialog == old(dialog)
    {
      quizCode := NormalizeCode(text);
      NormalizeCodeIsUpper(text);
    }

    /**
     * `handleJoinQuiz` up to its timer: a wrong-length code is refused at once with no
     * lookup; otherwise loading starts and the upper-cased code awaits the mock check.
     */
    method BeginJoin(code: string) returns (pending: Option<string>)
      modifies this
      ensures pending.None? <==> |Upper(code)| != CodeLength
      ensures pending.None? ==> dialog == InvalidCode && loading == old(loading)
      ensures pending.Some? ==> pending.value == Upper(code) && loading && dialog == old(dialog)
      ensures quizCode == old(quizCode) && showScanner == old(showScanner) && scanned == old(scanned)
    {
      var upperCode := Upper(code);
      if |upperCode| != CodeLength {
        dialog := InvalidCode;
        return None;
      }
      loading := true;
      pending := Some(upperCode);
    }

    /** The timer callback of `handleJoinQuiz`: loading ends and the verdict is shown. */
    method FinishJoin(upperCode: string)
      modifies this
      ensures !loading
      ensures dialog == if upperCode == ActiveQuizCode then Joining(upperCode) else InvalidQuizCode
      ensures quizCode == old(quizCode) && showScanner == old(showScanner) && scanned == old(scanned)
    {
      loading := false;
      dialog := if upperCode == ActiveQuizCode then Joining(upperCode) else InvalidQuizCode;
    }

    /** `handleJoinQuiz(code)` run to completion. */
    method JoinQuiz(code: string)
      modifies this
      ensures dialog == DialogFor(CheckQuizCode(code))
      ensures CheckQuizCode(code).WrongLength? ==> loading == old(loading)
      ensures !CheckQuizCode(code).WrongLength? ==> !loading
      ensures quizCode == old(quizCode) && showScanner == old(showScanner) && scanned == old(scanned)
    {
      var pending := BeginJoin(code);
      if pending.Some? {
        FinishJoin(pending.value);
      }
    }

    /** `handleManualJoin`: joins with what is in the box. */
    method ManualJoin() returns (pending: Option<string>)
      modifies this
      ensures pending.None? <==> |old(quizCode)| != CodeLength
      ensures old(JoinEnabled()) ==> pending.Some?
      ensures pending.None? ==> dialog == InvalidCode && loading == old(loading)
      ensures pending.Some? ==> pending.value == Upper(old(quizCode)) && loading && dialog == old(dialog)
      ensures pending.Some? && old(CodeUpper()) ==> pending.value == old(quizCode)
      ensures quizCode == old(quizCode) && showScanner == old(showScanner) && scanned == old(scanned)
    {
      pending := BeginJoin(quizCode);
    }

    /**
     * `handleOpenScanner` (corrected): on a grant the scanner is re-armed and shown; a
     * refusal of the first request raises the camera-permission alert.
     */
    method OpenScannerButton(permission: Option<bool>, requestGranted: bool)
      modifies this
      ensures OpenScanner(permission, requestGranted) == Opened ==> !scanned && showScanner && dialog == old(dialog)
      ensures OpenScanner(permission, requestGranted) == PermissionAlert ==>
                dialog == CameraPermissionRequired && scanned == old(scanned) && showScanner == old(showScanner)
      ensures OpenScanner(permission, requestGranted) == Declined ==>
                dialog == old(dialog) && scanned == old(scanned) && showScanner == old(showScanner)
      ensures quizCode == old(quizCode) && loading == old(loading)
    {
      var outcome := OpenScanner(permission, requestGranted);
      if outcome == Opened {
        scanned := false;
        showScanner := true;
      } else if outcome == PermissionAlert {
        dialog := CameraPermissionRequired;
      }
    }

    /** The close, back and "Enter Code Manually" buttons of the scanner. */
    method CloseScanner()
      modifies this
      ensures !showScanner
      ensures quizCode == old(quizCode) && loading == old(loading)
      ensures scanned == old(scanned) && dialog == old(dialog)
    {
      showScanner := false;
    }

    /**
     * `handleBarcodeScanned({data})`: ignored once a scan has been handled; otherwise
     * the scanner closes, the extracted code is shown upper-cased and a join starts.
     */
    method BarcodeScanned(data: string) returns (pending: Option<string>)
      modifies this
      ensures old(scanned) ==>
                pending.None? && scanned && quizCode == old(quizCode) && loading == old(loading)
                && showScanner == old(showScanner) && dialog == old(dialog)
      ensures !old(scanned) ==>
                && scanned && !showScanner && quizCode == Upper(ExtractCode(data)) && CodeUpper()
                && (pending.None? <==> |Upper(ExtractCode(data))| != CodeLength)
                && (pending.Some? ==> pending.value == quizCode && loading && dialog == old(dialog))
                && (pending.None? ==> dialog == InvalidCode && loading == old(loading))
      ensures old(CodeUpper()) ==> CodeUpper()
    {
      if scanned {
        return None;
      }
      scanned := true;
      showScanner := false;
      var code := ExtractCode(data);
      quizCode := Upper(code);
      UpperIdempotent(code);
      pending := BeginJoin(code);
    }
  }
}
