/** Runs of the components over one shared environment, showing what their
    contracts let a caller conclude: the analysis saved by the form is
    listed by a history page opened afterwards, a signed-in user sees it
    twice (the local copy and the remote row), and a saved chat lands in the
    local sessions list under its derived title. */
module Scenarios {
  import opened Records
  import opened JsText
  import opened Storage
  import opened AppComponent
  import opened HistoryComponent
  import opened QAComponent

  /** A new app over an empty store, with `user` signed in or not, that
      has sent `s` for analysis and is waiting for the result. */
  method StartSubmission(s: Submission, user: Option<UserId>) returns (app: App)
    requires Trim(s.description) != ""
    ensures fresh(app) && fresh(app.env) && app.Valid()
    ensures app.pending == Some(Pending(s, user))
    ensures app.env.reportsHistory == Absent && app.env.reportRows == []
    ensures app.env.chatSessions == Absent && app.env.session == user
  {
    var env := new Environment(Absent, Absent, Absent, None, [], [], user);
    app := new App(env);
    app.SyncUser();
    app.submission := s;
    assert app.user == user && app.submission == s;
    assert Trim(app.submission.description) != "";
    var request := app.HandleSubmit();
  }

  /** Signed out, with nothing stored: after a successful submission a new
      history page lists exactly the stored report, and nothing was sent
      to the remote table. */
  method SubmitThenReloadSignedOut(s: Submission, a: Analysis, id: Id, now: Millis)
    returns (listed: seq<Report>, remote: seq<ReportRow>)
    requires Trim(s.description) != ""
    ensures listed == [Report(id, now, s, a, false)]
    ensures remote == []
  {
    var app := StartSubmission(s, None);
    var env := app.env;
    app.FinishSubmit(Analyzed(a), id, now, "", Inserted);
    assert Items<Report>(Absent) == [];
    assert env.reportsHistory == Saved([Report(id, now, s, a, false)]);
    var page := new HistoryView(env);
    var completed := page.FetchData(true, true);
    assert completed;
    listed, remote := page.reports, env.reportRows;
  }

  /** Signed in, with nothing stored: a successful submission is stored
      locally and inserted remotely with the user's id and the same
      timestamp. */
  method SubmitSignedIn(s: Submission, a: Analysis, uid: UserId, id: Id, rowId: Id, now: Millis)
    returns (stored: Slot<Report>, remote: seq<ReportRow>)
    requires Trim(s.description) != ""
    ensures stored == Saved([Report(id, now, s, a, false)])
    ensures remote == [ReportRow(rowId, uid, s, a, now)]
  {
    var app := StartSubmission(s, Some(uid));
    var env := app.env;
    assert Items(env.reportsHistory) == [] && env.reportRows == [];
    app.FinishSubmit(Analyzed(a), id, now, rowId, Inserted);
    assert env.reportsHistory == Saved([] + [StoredItem(Pending(s, Some(uid)), a, id, now)]);
    assert env.reportRows == [] + [ReportRow(rowId, uid, s, a, now)];
    stored, remote := env.reportsHistory, env.reportRows;
  }

  /** A one-row remote table seen by its owner, merged after one local
      record: the local record, then the row tagged `isCloud`. */
  lemma MergeOneRow(local: Report, row: ReportRow)
    ensures MergeReports([local], RemoteReports(Some(row.userId), true, [row])) == [local, CloudReport(row)]
  {
  }

  /** Deleting the cloud copy from that listing leaves the local record,
      which is also what is written back; the remote table empties. */
  lemma DeleteCloudCopy(local: Report, row: ReportRow)
    requires !local.isCloud && local.id != row.id
    ensures RemoveById([local, CloudReport(row)], row.id) == [local]
    ensures LocalOnly([local]) == [local]
    ensures WithoutReport([row], row.id) == []
  {
  }

  /** The state `SubmitSignedIn` leaves, reloaded: the report is listed
      twice, the local copy and then the remote row tagged `isCloud`.
      Deleting the cloud entry removes the remote row and leaves the local
      copy listed and stored. */
  method ReloadSignedIn(local: Report, row: ReportRow)
    returns (listed: seq<Report>, afterDelete: seq<Report>, stored: Slot<Report>, remote: seq<ReportRow>)
    requires !local.isCloud && local.id != row.id
    ensures listed == [local, CloudReport(row)]
    ensures afterDelete == [local] && stored == Saved([local])
    ensures remote == []
  {
    var env := new Environment(Saved([local]), Absent, Absent, None, [row], [], Some(row.userId));
    var page := new HistoryView(env);
    var completed := page.FetchData(true, true);
    MergeOneRow(local, row);
    assert completed && page.user == Some(row.userId) && env.reportRows == [row];
    listed := page.reports;
    assert listed == [local, CloudReport(row)];
    var issued := page.DeleteReport(listed[1], true);
    DeleteCloudCopy(local, row);
    afterDelete, stored, remote := page.reports, env.reportsHistory, env.reportRows;
  }

  /** A question followed by its answer is titled with the question. */
  lemma TitleOfExchange(q: string, answer: string, t0: Millis, t1: Millis)
    requires q != "" && |q| <= TitleLimit
    ensures SessionTitle([ChatMessage(User, q, t0), ChatMessage(Assistant, answer, t1)]) == q
  {
  }

  /** A new chat over an empty store, signed out, that has sent `question`
      and is waiting for the answer. */
  method AskQuestion(question: string, t0: Millis) returns (chat: LegalQA)
    requires Trim(question) != ""
    ensures fresh(chat) && fresh(chat.env) && chat.loading
    ensures chat.messages == [ChatMessage(User, Trim(question), t0)]
  {
    var env := new Environment(Absent, Absent, Absent, None, [], [], None);
    chat := new LegalQA(env);
    var restored := chat.Mount();
    assert chat.messages == [] && !chat.loading;
    chat.input := question;
    assert Trim(chat.input) != "" && !chat.loading;
    var sent := chat.Send(t0);
  }

  /** Signed out: one question and its answer make a two-message
      transcript, kept as the active one, titled with the trimmed question. */
  method AskOnce(question: string, answer: string, t0: Millis, t1: Millis)
    returns (transcript: seq<ChatMessage>, active: Slot<ChatMessage>)
    requires Trim(question) != "" && |Trim(question)| <= TitleLimit
    ensures transcript == [ChatMessage(User, Trim(question), t0), ChatMessage(Assistant, answer, t1)]
    ensures active == Saved(transcript)
    ensures SessionTitle(transcript) == Trim(question)
  {
    var chat := AskQuestion(question, t0);
    chat.Complete(Answered(answer), t1);
    transcript, active := chat.messages, chat.env.chatHistory;
    TitleOfExchange(Trim(question), answer, t0, t1);
  }

  /** Signed out, with no saved sessions: saving a transcript puts exactly
      one local session, carrying its title, into the list. */
  method SaveSignedOut(transcript: seq<ChatMessage>, id: Id, now: Millis)
    returns (outcome: SaveOutcome, sessions: Slot<ChatSession>)
    requires transcript != []
    ensures outcome == SavedLocally
    ensures sessions == Saved([ChatSession(id, SessionTitle(transcript), transcript, now, false)])
  {
    var env := new Environment(Absent, Absent, Saved(transcript), None, [], [], None);
    var chat := new LegalQA(env);
    var restored := chat.Mount();
    assert chat.messages == transcript && chat.user == None;
    outcome := chat.SaveCurrentSession(id, now, true, "");
    assert Items<ChatSession>(Absent) == [];
    sessions := env.chatSessions;
  }
}
