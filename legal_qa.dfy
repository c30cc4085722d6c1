/** components/LegalQA.tsx: the question-and-answer chat. It restores the
    active transcript on mount, persists it whenever it is non-empty, sends a
    question with the earlier turns as history, saves the transcript as a
    titled session (remotely for a signed-in user, locally otherwise) and
    starts a new chat. */
module QAComponent {
  import opened Records
  import opened JsText
  import opened Storage

  const UntitledChat := "Untitled Chat"
  const TitleLimit := 40
  const Ellipsis := "..."
  const ErrorReply := "Error. Try again."

  /** `messages.find(m => m.role === 'user')`, as an index. */
  function FirstUser(messages: seq<ChatMessage>): (r: Option<nat>)
    ensures r.Some? ==> r.value < |messages| && messages[r.value].role == User
    ensures forall j :: 0 <= j < |messages| && (r.None? || j < r.value) ==> messages[j].role != User
  {
    if messages == [] then None
    else if messages[0].role == User then Some(0)
    else match FirstUser(messages[1..])
      case None => None
      case Some(k) => Some(k + 1)
  }

  /** `find(...)?.text || 'Untitled Chat'`: the first user message's text,
      unless there is none or it is empty. */
  function TitleText(messages: seq<ChatMessage>): (t: string)
    ensures t != ""
  {
    match FirstUser(messages)
    case Some(i) => if messages[i].text != "" then messages[i].text else UntitledChat
    case None => UntitledChat
  }

  /** A text over 40 characters keeps its first 40 and gains `...`. */
  function Truncate(text: string): (title: string)
    ensures |text| <= TitleLimit ==> title == text
    ensures |text| > TitleLimit ==> |title| == TitleLimit + |Ellipsis|
                                     && title[..TitleLimit] == text[..TitleLimit]
                                     && title[TitleLimit..] == Ellipsis
  {
    if |text| > TitleLimit then text[..TitleLimit] + Ellipsis else text
  }

  /** The title `saveCurrentSession` gives a transcript: never empty, at
      most 43 characters. */
  function SessionTitle(messages: seq<ChatMessage>): (title: string)
    ensures title != "" && |title| <= TitleLimit + |Ellipsis|
  {
    Truncate(TitleText(messages))
  }

  /** The title in terms of the transcript itself: `Untitled Chat` when no
      message has the user role; otherwise the truncated text of the first
      one that has it, or `Untitled Chat` if that text is empty. */
  lemma SessionTitleOf(messages: seq<ChatMessage>, i: nat)
    ensures (forall j :: 0 <= j < |messages| ==> messages[j].role != User) ==>
              SessionTitle(messages) == UntitledChat
    ensures i < |messages| && messages[i].role == User
            && (forall j :: 0 <= j < i ==> messages[j].role != User) ==>
              SessionTitle(messages) == Truncate(if messages[i].text == "" then UntitledChat else messages[i].text)
  {
  }

  /** One turn of the history sent with a question: a role and a text. */
  datatype Turn = Turn(role: Role, text: string)

  /** `m.role === 'user' ? 'user' : 'assistant'`. */
  function HistoryRole(role: Role): (r: Role)
    ensures r == User || r == Assistant
    ensures r == User <==> role == User
  {
    if role == User then User else Assistant
  }

  /** The history given to the service: one turn per message, in order,
      with the text kept and every role other than `user` sent as `assistant`. */
  function ToHistory(messages: seq<ChatMessage>): (history: seq<Turn>)
    ensures |history| == |messages|
    ensures forall i :: 0 <= i < |messages| ==>
              && history[i].text == messages[i].text
              && (history[i].role == User <==> messages[i].role == User)
              && (history[i].role != User ==> history[i].role == Assistant)
  {
    seq(|messages|, i requires 0 <= i < |messages| => Turn(HistoryRole(messages[i].role), messages[i].text))
  }

  /** The history of a longer transcript extends that of its prefix. */
  lemma ToHistoryAppend(messages: seq<ChatMessage>, m: ChatMessage)
    ensures ToHistory(messages + [m]) == ToHistory(messages) + [Turn(HistoryRole(m.role), m.text)]
  {
  }

  /** The chat input's dictation handler: `p + ' ' + transcript`, with the
      space added even when the input is empty. */
  function AppendSpoken(input: string, transcript: string): (r: string)
    ensures |r| == |input| + 1 + |transcript|
    ensures r[..|input|] == input && r[|input|] == ' ' && r[|input| + 1..] == transcript
  {
    input + " " + transcript
  }

  /** What the question service delivered. */
  datatype Reply = Answered(text: string) | ReplyFailed

  /** The text of the assistant message a reply becomes. */
  function ReplyText(reply: Reply): (text: string)
    ensures reply.Answered? ==> text == reply.text
    ensures reply.ReplyFailed? ==> text == ErrorReply
  {
    if reply.Answered? then reply.text else ErrorReply
  }

  /** A question on its way to the service. */
  datatype Question = Question(text: string, history: seq<Turn>)

  /** How `saveCurrentSession` ended: nothing to save, one of its three
      alerts, or rejected because the local sessions list did not parse. */
  datatype SaveOutcome = NothingToSave | SyncedToCloud | CloudError | SavedLocally | ParseFailed

  class LegalQA {
    const env: Environment
    var messages: seq<ChatMessage>
    var input: string
    var loading: bool
    var user: Option<UserId>

    constructor (env: Environment)
      ensures this.env == env && messages == [] && input == "" && !loading && user == None
    {
      this.env := env;
      messages, input, loading, user := [], "", false, None;
    }

    /** The mount effect: read the session and restore a saved transcript.
        `JSON.parse` is not guarded: on a corrupt transcript the effect
        throws, which in the app unmounts the component; here `restored` is
        false and nothing is restored. The persistence effect then writes
        back what was read, so the key itself is left as it was. */
    method Mount() returns (restored: bool)
      modifies this`messages, this`user, env`chatHistory
      ensures user == env.session
      ensures restored <==> !env.chatHistory.Corrupt?
      ensures messages == if env.chatHistory.Saved? then env.chatHistory.items else old(messages)
      ensures env.chatHistory == old(env.chatHistory)
    {
      user := env.session;
      if env.chatHistory.Corrupt? {
        return false;
      }
      if env.chatHistory.Saved? {
        messages := env.chatHistory.items;
        PersistTranscript();
      }
      restored := true;
    }

    /** The effect on `messages`: a non-empty transcript is saved as the
        active one; an empty one is not written. */
    method PersistTranscript()
      modifies env`chatHistory
      ensures messages != [] ==> env.chatHistory == Saved(messages)
      ensures messages == [] ==> env.chatHistory == old(env.chatHistory)
    {
      if |messages| > 0 {
        env.chatHistory := Saved(messages);
      }
    }

    /** `saveCurrentSession`. An empty transcript is ignored. A signed-in
        user gets only a remote row (`inserted` says whether the insert
        succeeded); otherwise the session is appended to the local list,
        whose `JSON.parse` is not guarded. */
    method SaveCurrentSession(id: Id, now: Millis, inserted: bool, rowId: Id) returns (outcome: SaveOutcome)
      modifies env`chatSessions, env`chatRows
      ensures messages == [] ==>
                outcome == NothingToSave
                && env.chatSessions == old(env.chatSessions) && env.chatRows == old(env.chatRows)
      ensures messages != [] && user.Some? ==>
                && env.chatSessions == old(env.chatSessions)
                && (inserted ==>
                      outcome == SyncedToCloud
                      && env.chatRows == old(env.chatRows) + [ChatRow(rowId, user.value, SessionTitle(messages), messages, now)])
                && (!inserted ==> outcome == CloudError && env.chatRows == old(env.chatRows))
      ensures messages != [] && user.None? ==>
                && env.chatRows == old(env.chatRows)
                && (old(env.chatSessions).Corrupt? ==> outcome == ParseFailed && env.chatSessions == old(env.chatSessions))
                && (!old(env.chatSessions).Corrupt? ==>
                      outcome == SavedLocally
                      && env.chatSessions == Saved(Items(old(env.chatSessions))
                                                   + [ChatSession(id, SessionTitle(messages), messages, now, false)]))
    {
      if |messages| == 0 {
        return NothingToSave;
      }
      var title := SessionTitle(messages);
      if user.Some? {
        if inserted {
          env.chatRows := env.chatRows + [ChatRow(rowId, user.value, title, messages, now)];
          outcome := SyncedToCloud;
        } else {
          outcome := CloudError;
        }
      } else {
        if env.chatSessions.Corrupt? {
          return ParseFailed;
        }
        var sessions := Items(env.chatSessions);
        sessions := sessions + [ChatSession(id, title, messages, now, false)];
        env.chatSessions := Saved(sessions);
        outcome := SavedLocally;
      }
    }

    /** `handleSend` up to the awaited question. A blank input, or a question
        already in flight, changes nothing. Otherwise the trimmed input is
        appended as a user message, the input is cleared, `loading` is set,
        and the question goes out with the transcript as it was before. */
    method Send(now: Millis) returns (question: Option<Question>)
      modifies this`messages, this`input, this`loading, env`chatHistory
      ensures Trim(old(input)) == "" || old(loading) ==>
                && question == None && messages == old(messages) && input == old(input)
                && loading == old(loading) && env.chatHistory == old(env.chatHistory)
      ensures Trim(old(input)) != "" && !old(loading) ==>
                && question == Some(Question(Trim(old(input)), ToHistory(old(messages))))
                && messages == old(messages) + [ChatMessage(User, Trim(old(input)), now)]
                && input == "" && loading
                && env.chatHistory == Saved(messages)
    {
      if Trim(input) == "" || loading {
        return None;
      }
      var text := Trim(input);
      var history := ToHistory(messages);
      input := "";
      messages := messages + [ChatMessage(User, text, now)];
      PersistTranscript();
      loading := true;
      question := Some(Question(text, history));
    }

    /** `handleSend` after the question returns or throws: exactly one
        assistant message is appended (the answer or the error text) and
        `loading` is cleared. */
    method Complete(reply: Reply, now: Millis)
      requires loading
      modifies this`messages, this`loading, env`chatHistory
      ensures messages == old(messages) + [ChatMessage(Assistant, ReplyText(reply), now)]
      ensures !loading && env.chatHistory == Saved(messages)
    {
      messages := messages + [ChatMessage(Assistant, ReplyText(reply), now)];
      PersistTranscript();
      loading := false;
    }

    /** The New Chat button: the transcript and its key are cleared. */
    method NewChat()
      modifies this`messages, env`chatHistory
      ensures messages == [] && env.chatHistory == Absent
    {
      messages := [];
      env.chatHistory := Absent;
      PersistTranscript();
    }

    /** The speech recogniser's result handler for the chat input. */
    method OnDictation(transcript: string)
      modifies this`input
      ensures input == AppendSpoken(old(input), transcript)
    {
      input := AppendSpoken(input, transcript);
    }
  }
}
