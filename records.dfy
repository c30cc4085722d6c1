/** The records the three components keep in browser storage, in component
    state and in the two remote tables. Strings are sequences of characters,
    one character per UTF-16 code unit. */
module Records {

  datatype Option<T> = None | Some(value: T)

  /** `crypto.randomUUID()` for local records, the server-assigned key for rows. */
  type Id = string
  /** The id of a signed-in user. */
  type UserId = string
  /** `Date.now()`: milliseconds since the epoch. */
  type Millis = int

  /** The case category; `FalseCase` is the form's initial choice. The other
      labels of the enumeration are opaque here. */
  datatype CaseType = FalseCase | OtherCase(name: string)

  datatype Urgency = Low | Medium | High

  /** What the user submits for analysis. */
  datatype Submission = Submission(caseType: CaseType, description: string, urgency: Urgency)

  /** The structured result of the analysis service; only the summary is shown
      in the history list, the other fields are opaque. */
  datatype Analysis = Analysis(summary: string, details: string)

  /** A stored analysis. `isCloud` is the presentation flag that the history
      merge adds to rows read from the remote table; `false` stands for the
      property being absent, as it is on every record the app stores locally. */
  datatype Report = Report(id: Id, timestamp: Millis, submission: Submission,
                           analysis: Analysis, isCloud: bool)

  /** The role string of a message that is neither `user` nor `assistant`. */
  type OtherRoleName = name: string | name != "user" && name != "assistant" witness "system"

  /** Messages loaded from storage are not checked, so a role other than
      `user` and `assistant` can occur; `UnknownRole` holds its string,
      which is never one of those two. */
  datatype Role = User | Assistant | UnknownRole(name: OtherRoleName)

  datatype ChatMessage = ChatMessage(role: Role, text: string, timestamp: Millis)

  datatype ChatSession = ChatSession(id: Id, title: string, messages: seq<ChatMessage>,
                                     timestamp: Millis, isCloud: bool)

  /** A row of the remote `reports` table. */
  datatype ReportRow = ReportRow(id: Id, userId: UserId, submission: Submission,
                                 analysis: Analysis, timestamp: Millis)

  /** A row of the remote `chat_sessions` table. */
  datatype ChatRow = ChatRow(id: Id, userId: UserId, title: string,
                             messages: seq<ChatMessage>, timestamp: Millis)

  /** A localStorage key that holds a JSON array: missing (or the empty
      string, which the code treats the same way), a well-formed array, or
      text on which `JSON.parse` throws. */
  datatype Slot<T> = Absent | Saved(items: seq<T>) | Corrupt

  /** `s ? JSON.parse(s) : []` for a key that parses: a missing or empty
      key reads as the empty list, a saved one as its items. */
  function Items<T>(slot: Slot<T>): (items: seq<T>)
    requires !slot.Corrupt?
    ensures slot.Absent? ==> items == []
    ensures slot.Saved? ==> items == slot.items
  {
    if slot.Saved? then slot.items else []
  }
}
