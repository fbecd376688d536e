/**
 * The join-classroom screen: the six-character code box, the mock join service and the
 * status line under the box.
 */
module JoinClassroom {
  import opened Wrappers
  import opened JsText
  import opened CodeInput

  const ValidClassCode := "R7H12K"
  const ClassId: int := 123
  const ClassName := "Advanced React Development"
  const LengthError := "Please enter a valid 6-character classroom code."
  const RejectMessage := "Invalid classroom code or the class is full."

  datatype ClassInfo = ClassInfo(id: int, name: string)

  /** What `mockJoinClassroom` resolves to. */
  datatype JoinResponse = JoinResponse(success: bool, message: string, data: Option<ClassInfo>)

  /** `mockJoinClassroom(classCode)`: only the one known code, in any letter case, joins. */
  function MockJoinClassroom(classCode: string): (r: JoinResponse)
    ensures r.success <==> |classCode| == CodeLength && Upper(classCode) == ValidClassCode
    ensures r.success ==> r.data == Some(ClassInfo(ClassId, ClassName))
    ensures r.success ==> r.message == "Successfully joined classroom " + classCode + "."
    ensures !r.success ==> r.data.None? && r.message == RejectMessage
  {
    if |classCode| == CodeLength && Upper(classCode) == ValidClassCode then
      JoinResponse(true, "Successfully joined classroom " + classCode + ".", Some(ClassInfo(ClassId, ClassName)))
    else
      JoinResponse(false, RejectMessage, None)
  }

  datatype StatusKind = Plain | Error | Succeeded

  /** `statusMessage`; it is shown only when its text is non-empty. */
  datatype Status = Status(kind: StatusKind, text: string)

  const Cleared := Status(Plain, "")

  /** The status a settled join leaves on the screen. */
  function StatusAfter(r: JoinResponse): (s: Status)
    ensures s.kind == Succeeded <==> r.success
    ensures r.success && r.data.Some? ==> s.text == "Successfully joined " + r.data.value.name + "!"
    ensures !r.success ==> s == Status(Error, r.message)
    ensures s.text != "" || (!r.success && r.message == "")
  {
    if r.success then
      Status(Succeeded, "Successfully joined " + (if r.data.Some? then r.data.value.name else "") + "!")
    else Status(Error, r.message)
  }

  class Screen {
    var classCode: string
    var loading: bool
    var status: Status
    /** The "Joined Class" alert and `router.back()` queued two seconds after a success. */
    var scheduledExit: Option<string>

    constructor ()
      ensures classCode == "" && !loading && status == Cleared && scheduledExit.None?
    {
      classCode := "";
      loading := false;
      status := Cleared;
      scheduledExit := None;
    }

    /** The Join Class button is disabled while loading or unless six characters are in the box. */
    predicate JoinEnabled()
      reads this
    {
      !loading && |classCode| == CodeLength
    }

    method ChangeText(text: string)
      modifies this
      ensures classCode == NormalizeCode(text)
      ensures loading == old(loading) && status == old(status) && scheduledExit == old(scheduledExit)
    {
      classCode := NormalizeCode(text);
    }

    /**
     * `handleJoin` up to its `await`: a code of the wrong length sets the error status and
     * stops; otherwise loading starts, the status clears and the upper-cased code goes out.
     */
    method BeginJoin() returns (pending: Option<string>)
      modifies this
      ensures pending.None? <==> |old(classCode)| != CodeLength
      ensures old(JoinEnabled()) ==> pending.Some?
      ensures pending.None? ==> status == Status(Error, LengthError) && loading == old(loading)
      ensures pending.Some? ==> pending.value == Upper(old(classCode)) && loading && status == Cleared
      ensures classCode == old(classCode) && scheduledExit == old(scheduledExit)
    {
      if |classCode| != CodeLength {
        status := Status(Error, LengthError);
        return None;
      }
      loading := true;
      status := Cleared;
      pending := Some(Upper(classCode));
    }

    /** `handleJoin` after the mock resolves: loading ends and the outcome is shown. */
    method FinishJoin(upperCode: string)
      modifies this
      ensures !loading
      ensures status == StatusAfter(MockJoinClassroom(upperCode))
      ensures MockJoinClassroom(upperCode).success ==>
                scheduledExit == Some("You are now enrolled in " + ClassName + ".")
      ensures !MockJoinClassroom(upperCode).success ==> scheduledExit == old(scheduledExit)
      ensures classCode == old(classCode)
    {
      var result := MockJoinClassroom(upperCode);
      loading := false;
      status := StatusAfter(result);
      if result.success {
        scheduledExit := Some("You are now enrolled in " + result.data.value.name + ".");
      }
    }

    /** `handleJoin` run to completion. */
    method Join()
      modifies this
      ensures |old(classCode)| != CodeLength ==> status == Status(Error, LengthError) && loading == old(loading)
      ensures |old(classCode)| == CodeLength ==>
                !loading && status == StatusAfter(MockJoinClassroom(Upper(old(classCode))))
      ensures |old(classCode)| == CodeLength && MockJoinClassroom(Upper(old(classCode))).success ==>
                scheduledExit == Some("You are now enrolled in " + ClassName + ".")
      ensures |old(classCode)| != CodeLength || !MockJoinClassroom(Upper(old(classCode))).success ==>
                scheduledExit == old(scheduledExit)
      ensures classCode == old(classCode)
    {
      var pending := BeginJoin();
      if pending.Some? {
        FinishJoin(pending.value);
      }
    }
  }

  /** A join from a six-character box succeeds exactly for the known code, in any letter case. */
  lemma JoinSucceedsIff(classCode: string)
    requires |classCode| == CodeLength
    ensures var s := StatusAfter(MockJoinClassroom(Upper(classCode)));
            (s.kind == Succeeded <==> Upper(classCode) == ValidClassCode)
            && (s.kind == Succeeded ==> s.text == "Successfully joined " + ClassName + "!")
            && (s.kind != Succeeded ==> s == Status(Error, RejectMessage))
  {
    UpperIdempotent(classCode);
  }
}
