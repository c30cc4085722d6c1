/** The state the three components share: the browser's localStorage keys,
    the two tables of the hosted database, and the auth session. */
module Storage {
  import opened Records
  import opened Lists

  class Environment {
    /** `legalguard_reports_history`: the locally saved analyses. */
    var reportsHistory: Slot<Report>
    /** `legalguard_chat_sessions`: the locally saved chat sessions. */
    var chatSessions: Slot<ChatSession>
    /** `legalguard_chat_history`: the active chat transcript. */
    var chatHistory: Slot<ChatMessage>
    /** `legalguard_theme`: the raw saved string, if any. */
    var theme: Option<string>
    /** The remote `reports` table, in the order the server returns it. */
    var reportRows: seq<ReportRow>
    /** The remote `chat_sessions` table, in the order the server returns it. */
    var chatRows: seq<ChatRow>
    /** The user of the current auth session, if one is signed in. */
    var session: Option<UserId>

    constructor (reportsHistory: Slot<Report>, chatSessions: Slot<ChatSession>,
                 chatHistory: Slot<ChatMessage>, theme: Option<string>,
                 reportRows: seq<ReportRow>, chatRows: seq<ChatRow>, session: Option<UserId>)
      ensures this.reportsHistory == reportsHistory && this.chatSessions == chatSessions
      ensures this.chatHistory == chatHistory && this.theme == theme
      ensures this.reportRows == reportRows && this.chatRows == chatRows
      ensures this.session == session
    {
      this.reportsHistory := reportsHistory;
      this.chatSessions := chatSessions;
      this.chatHistory := chatHistory;
      this.theme := theme;
      this.reportRows := reportRows;
      this.chatRows := chatRows;
      this.session := session;
    }
  }

  /** `from('reports').select('*').eq('user_id', user)`: the user's rows, in
      table order. */
  function ReportsOf(rows: seq<ReportRow>, user: UserId): (r: seq<ReportRow>)
    ensures forall row :: row in r <==> row in rows && row.userId == user
  {
    Filter(rows, (row: ReportRow) => row.userId == user)
  }

  /** `from('chat_sessions').select('*').eq('user_id', user)`. */
  function ChatsOf(rows: seq<ChatRow>, user: UserId): (r: seq<ChatRow>)
    ensures forall row :: row in r <==> row in rows && row.userId == user
  {
    Filter(rows, (row: ChatRow) => row.userId == user)
  }

  /** `from('reports').delete().eq('id', id)`: every row with that id goes,
      whoever owns it; the others stay in order. */
  function WithoutReport(rows: seq<ReportRow>, id: Id): (r: seq<ReportRow>)
    ensures forall row :: row in r <==> row in rows && row.id != id
  {
    Filter(rows, (row: ReportRow) => row.id != id)
  }
}
