/**
 * The classroom detail screen: its mock assignment list and the discussion thread with
 * its send box.
 */
module ClassroomDetail {
  import opened Wrappers
  import opened JsText

  /** The signed-in user as this screen knows them. */
  const UserName := "Student Doe"

  datatype Assignment = Assignment(id: int, title: string, dueDate: string, status: string)

  datatype Message = Message(id: int, author: string, text: string, timestamp: string)

  const MockAssignments: seq<Assignment> := [
    Assignment(1, "State Management Deep Dive", "2024-11-15", "Due"),
    Assignment(2, "Component Lifecycle Essay", "2024-11-01", "Submitted"),
    Assignment(3, "Final Project Planning", "2024-12-05", "Due")
  ]

  const InitialDiscussions: seq<Message> := [
    Message(101, "Prof. Anuvat", "Welcome to the class! Let me know if you have any questions.", "10:00 AM"),
    Message(102, UserName, "When is the first assignment due?", "10:05 AM")
  ]

  /** An assignment card is drawn as due exactly when its status reads "Due". */
  predicate IsDue(a: Assignment)
  {
    a.status == "Due"
  }

  /** A message is drawn as "You" exactly when its author is the signed-in user. */
  predicate IsCurrentUser(m: Message)
  {
    m.author == UserName
  }

  /** The positions of the cards drawn as due. */
  function DuePositions(assignments: seq<Assignment>): set<nat>
  {
    set i: nat | i < |assignments| && IsDue(assignments[i])
  }

  /** Of the mock list the first and the last assignment are due. */
  lemma MockDueAssignments()
    ensures DuePositions(MockAssignments) == {0, 2}
  {
    assert 1 !in DuePositions(MockAssignments);
  }

  /** Of the two opening messages only the second is drawn as the user's own. */
  lemma InitialThreadAuthors()
    ensures !IsCurrentUser(InitialDiscussions[0]) && IsCurrentUser(InitialDiscussions[1])
    ensures forall m :: m in InitialDiscussions && IsCurrentUser(m) ==> m.id == 102
  {
  }

  /** The send button is disabled while sending or when the box holds only white space. */
  function SendEnabled(isSending: bool, newMessage: string): (r: bool)
    ensures r <==> !isSending && !AllSpace(newMessage)
  {
    TrimEmptyIff(newMessage);
    !isSending && Trim(newMessage) != ""
  }

  /** What is posted: the box's text trimmed, neither empty nor padded with white space. */
  lemma PostedTextShape(newMessage: string)
    requires !AllSpace(newMessage)
    ensures var t := Trim(newMessage);
            t != "" && !IsJsSpace(t[0]) && !IsJsSpace(t[|t| - 1]) && Trim(t) == t
  {
    TrimEmptyIff(newMessage);
    TrimIsInnerSlice(newMessage);
    TrimIdempotent(newMessage);
  }

  class Thread {
    var discussions: seq<Message>
    var newMessage: string
    var isSending: bool

    constructor ()
      ensures discussions == InitialDiscussions && newMessage == "" && !isSending
    {
      discussions := InitialDiscussions;
      newMessage := "";
      isSending := false;
    }

    /** `onChangeText` of the message box. */
    method Edit(text: string)
      modifies this
      ensures newMessage == text && discussions == old(discussions) && isSending == old(isSending)
    {
      newMessage := text;
    }

    /**
     * `handleSend` up to its timer: a blank box does nothing; otherwise sending starts,
     * the box clears and the trimmed text waits to be posted.
     */
    method Send() returns (pending: Option<string>)
      modifies this
      ensures pending.None? <==> AllSpace(old(newMessage))
      ensures pending.None? ==>
                newMessage == old(newMessage) && isSending == old(isSending) && discussions == old(discussions)
      ensures pending.Some? ==>
                pending.value == Trim(old(newMessage)) && isSending && newMessage == "" && discussions == old(discussions)
    {
      TrimEmptyIff(newMessage);
      if Trim(newMessage) == "" {
        return None;
      }
      isSending := true;
      var text := Trim(newMessage);
      newMessage := "";
      pending := Some(text);
    }

    /**
     * The timer callback: appends the user's message to the thread as it is then and
     * ends sending. `id` stands for `Date.now()` and `timestamp` for the local time text.
     */
    method Deliver(text: string, id: int, timestamp: string)
      modifies this
      ensures discussions == old(discussions) + [Message(id, UserName, text, timestamp)]
      ensures |discussions| == |old(discussions)| + 1 && IsCurrentUser(discussions[|discussions| - 1])
      ensures !isSending && newMessage == old(newMessage)
    {
      discussions := discussions + [Message(id, UserName, text, timestamp)];
      isSending := false;
    }

    /** `handleSend` run to completion, with nothing typed while the timer ran. */
    method HandleSend(id: int, timestamp: string)
      modifies this
      ensures AllSpace(old(newMessage)) ==>
                discussions == old(discussions) && newMessage == old(newMessage) && isSending == old(isSending)
      ensures !AllSpace(old(newMessage)) ==>
                && discussions == old(discussions) + [Message(id, UserName, Trim(old(newMessage)), timestamp)]
                && newMessage == "" && !isSending
    {
      var pending := Send();
      if pending.Some? {
        Deliver(pending.value, id, timestamp);
      }
    }
  }
}
