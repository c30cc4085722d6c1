/** components/HistoryView.tsx: the history page. On mount it lists the
    locally saved reports and chat sessions followed by the signed-in user's
    remote ones, tagged `isCloud`; it deletes single reports, clears the
    local report history, and opens a saved chat as the active transcript. */
module HistoryComponent {
  import opened Records
  import opened Lists
  import opened Storage

  /** A remote report row as the page lists it. */
  function CloudReport(row: ReportRow): (r: Report)
    ensures r.isCloud && r.id == row.id && r.timestamp == row.timestamp
    ensures r.submission == row.submission && r.analysis == row.analysis
  {
    Report(row.id, row.timestamp, row.submission, row.analysis, true)
  }

  /** A remote chat row as the page lists it. */
  function CloudChat(row: ChatRow): (s: ChatSession)
    ensures s.isCloud && s.id == row.id && s.timestamp == row.timestamp
    ensures s.title == row.title && s.messages == row.messages
  {
    ChatSession(row.id, row.title, row.messages, row.timestamp, true)
  }

  /** The result of one remote select: nothing when nobody is signed in or
      the query returned no data, else the user's rows in server order. */
  function RemoteReports(user: Option<UserId>, ok: bool, rows: seq<ReportRow>): (r: Option<seq<ReportRow>>)
    ensures r.Some? <==> user.Some? && ok
    ensures r.Some? ==> forall row :: row in r.value <==> row in rows && row.userId == user.value
  {
    if user.Some? && ok then Some(ReportsOf(rows, user.value)) else None
  }

  function RemoteChats(user: Option<UserId>, ok: bool, rows: seq<ChatRow>): (r: Option<seq<ChatRow>>)
    ensures r.Some? <==> user.Some? && ok
    ensures r.Some? ==> forall row :: row in r.value <==> row in rows && row.userId == user.value
  {
    if user.Some? && ok then Some(ChatsOf(rows, user.value)) else None
  }

  /** `[...localReports, ...cloudFormatted]`, or the local list alone when
      the remote query gave nothing: the local items first and unchanged,
      then every fetched row tagged `isCloud`, in server order. No id is
      compared, so nothing is dropped as a duplicate. */
  function MergeReports(local: seq<Report>, fetched: Option<seq<ReportRow>>): (merged: seq<Report>)
    ensures fetched.None? ==> merged == local
    ensures fetched.Some? ==>
              && |merged| == |local| + |fetched.value|
              && merged[..|local|] == local
              && forall j :: 0 <= j < |fetched.value| ==> merged[|local| + j] == CloudReport(fetched.value[j])
  {
    match fetched
    case None => local
    case Some(rows) => local + seq(|rows|, j requires 0 <= j < |rows| => CloudReport(rows[j]))
  }

  /** The same merge for chat sessions, independent of the reports. */
  function MergeChats(local: seq<ChatSession>, fetched: Option<seq<ChatRow>>): (merged: seq<ChatSession>)
    ensures fetched.None? ==> merged == local
    ensures fetched.Some? ==>
              && |merged| == |local| + |fetched.value|
              && merged[..|local|] == local
              && forall j :: 0 <= j < |fetched.value| ==> merged[|local| + j] == CloudChat(fetched.value[j])
  {
    match fetched
    case None => local
    case Some(rows) => local + seq(|rows|, j requires 0 <= j < |rows| => CloudChat(rows[j]))
  }

  /** The predicate of `filter(r => r.id !== id)`. */
  function OtherId(id: Id): Report -> bool {
    (x: Report) => x.id != id
  }

  /** The predicate of `filter(r => !r.isCloud)`. */
  const NotCloud: Report -> bool := (x: Report) => !x.isCloud

  /** `reports.filter(r => r.id !== id)`: every entry with that id goes,
      local or cloud; every other entry keeps its multiplicity. */
  function RemoveById(reports: seq<Report>, id: Id): (r: seq<Report>)
    ensures forall x :: x in r <==> x in reports && x.id != id
    ensures forall x: Report :: x.id != id ==> multiset(r)[x] == multiset(reports)[x]
  {
    FilterCount(reports, OtherId(id));
    Filter(reports, OtherId(id))
  }

  /** Deleting by id keeps the survivors in order: it deletes from each
      part of a list separately. */
  lemma RemoveByIdAppend(a: seq<Report>, b: seq<Report>, id: Id)
    ensures RemoveById(a + b, id) == RemoveById(a, id) + RemoveById(b, id)
  {
    FilterAppend(a, b, OtherId(id));
  }

  /** `updated.filter(r => !r.isCloud)`: what is written back to storage. */
  function LocalOnly(reports: seq<Report>): (r: seq<Report>)
    ensures forall x :: x in r ==> !x.isCloud
    ensures forall x: Report :: !x.isCloud ==> multiset(r)[x] == multiset(reports)[x]
  {
    FilterCount(reports, NotCloud);
    Filter(reports, NotCloud)
  }

  /** A record whose id occurs both locally and remotely is listed twice. */
  lemma NoDeduplication(local: seq<Report>, rows: seq<ReportRow>, i: nat, j: nat)
    requires i < |local| && j < |rows| && local[i].id == rows[j].id
    ensures var merged := MergeReports(local, Some(rows));
            merged[i].id == merged[|local| + j].id && i != |local| + j
  {
  }

  /** With ids unique, deleting a record removes exactly it and leaves the
      records before and after it in order. */
  lemma DeleteUniqueRecord(before: seq<Report>, x: Report, after: seq<Report>)
    requires forall k :: 0 <= k < |before| ==> before[k].id != x.id
    requires forall k :: 0 <= k < |after| ==> after[k].id != x.id
    ensures RemoveById(before + [x] + after, x.id) == before + after
  {
    var keep := OtherId(x.id);
    assert forall k :: 0 <= k < |before| ==> keep(before[k]);
    assert forall k :: 0 <= k < |after| ==> keep(after[k]);
    FilterKeepsAll(before, keep);
    FilterKeepsAll(after, keep);
    FilterCons(x, [], keep);
    assert Filter([x], keep) == [] by { assert [x] + [] == [x]; }
    FilterAppend(before, [x], keep);
    FilterAppend(before + [x], after, keep);
    calc {
      RemoveById(before + [x] + after, x.id);
      Filter(before + [x] + after, keep);
      Filter(before, keep) + Filter([x], keep) + Filter(after, keep);
      { assert before + [] == before; }
      before + after;
    }
  }

  /** The cloud part of a merge never reaches the persisted list: keeping
      the local records of a merge keeps those of the local part. */
  lemma LocalOnlyOfMerge(local: seq<Report>, fetched: Option<seq<ReportRow>>)
    ensures LocalOnly(MergeReports(local, fetched)) == LocalOnly(local)
  {
    if fetched.Some? {
      var merged := MergeReports(local, fetched);
      var cloud := merged[|local|..];
      assert merged == local + cloud;
      FilterAppend(local, cloud, NotCloud);
      FilterDropsAll(cloud, NotCloud);
    }
  }

  /** After a load, deleting any record rewrites storage with exactly the
      previously stored records minus those with the deleted id, provided
      the stored list held no cloud-tagged record (the app never writes one). */
  lemma PersistAfterDelete(local: seq<Report>, fetched: Option<seq<ReportRow>>, id: Id)
    requires forall k :: 0 <= k < |local| ==> !local[k].isCloud
    ensures LocalOnly(RemoveById(MergeReports(local, fetched), id)) == RemoveById(local, id)
  {
    var merged := MergeReports(local, fetched);
    FilterCommutes(merged, OtherId(id), NotCloud);
    LocalOnlyOfMerge(local, fetched);
    FilterKeepsAll(local, NotCloud);
  }

  class HistoryView {
    const env: Environment
    var reports: seq<Report>
    var chatSessions: seq<ChatSession>
    var loading: bool
    /** The user seen by the last load; deletions consult this copy. */
    var user: Option<UserId>

    constructor (env: Environment)
      ensures this.env == env && reports == [] && chatSessions == []
      ensures loading && user == None
    {
      this.env := env;
      reports, chatSessions, loading, user := [], [], true, None;
    }

    /** `fetchData`: read the session, parse both local lists (`JSON.parse`
        is not guarded: a corrupt list rejects the load, leaving the page
        loading with its lists as they were), then for a signed-in user read
        the two remote tables one after the other and append what each
        returned. `reportsFetched`/`chatsFetched` say whether each query
        returned data. Storage and the remote tables are only read. */
    method FetchData(reportsFetched: bool, chatsFetched: bool) returns (completed: bool)
      modifies this`reports, this`chatSessions, this`loading, this`user
      ensures user == env.session
      ensures completed <==> !env.reportsHistory.Corrupt? && !env.chatSessions.Corrupt?
      ensures !completed ==> loading && reports == old(reports) && chatSessions == old(chatSessions)
      ensures completed ==>
                && !loading
                && reports == MergeReports(Items(env.reportsHistory),
                                           RemoteReports(env.session, reportsFetched, env.reportRows))
                && chatSessions == MergeChats(Items(env.chatSessions),
                                              RemoteChats(env.session, chatsFetched, env.chatRows))
    {
      loading := true;
      user := env.session;
      if env.reportsHistory.Corrupt? || env.chatSessions.Corrupt? {
        return false;
      }
      var localReports := Items(env.reportsHistory);
      var localChats := Items(env.chatSessions);
      if user.Some? {
        var cloudReports := RemoteReports(user, reportsFetched, env.reportRows);
        var cloudChats := RemoteChats(user, chatsFetched, env.chatRows);
        localReports := MergeReports(localReports, cloudReports);
        localChats := MergeChats(localChats, cloudChats);
      }
      reports, chatSessions, loading := localReports, localChats, false;
      completed := true;
    }

    /** `deleteReport`: a remote delete by id is issued only for a cloud
        record while a user is known (`deleted` says whether it succeeded;
        its outcome is not looked at). Then every listed entry with that id
        goes, and storage is rewritten with the remaining non-cloud entries. */
    method DeleteReport(report: Report, deleted: bool) returns (remoteIssued: bool)
      modifies this`reports, env`reportRows, env`reportsHistory
      ensures remoteIssued <==> report.isCloud && user.Some?
      ensures env.reportRows == if remoteIssued && deleted then WithoutReport(old(env.reportRows), report.id)
                                else old(env.reportRows)
      ensures reports == RemoveById(old(reports), report.id)
      ensures env.reportsHistory == Saved(LocalOnly(reports))
    {
      remoteIssued := report.isCloud && user.Some?;
      if remoteIssued && deleted {
        env.reportRows := WithoutReport(env.reportRows, report.id);
      }
      reports := RemoveById(reports, report.id);
      env.reportsHistory := Saved(LocalOnly(reports));
    }

    /** `clearAllHistory`: when the user confirms, the listed reports and the
        local reports key go; chat sessions and remote rows stay. */
    method ClearAllHistory(confirmed: bool)
      modifies this`reports, env`reportsHistory
      ensures confirmed ==> reports == [] && env.reportsHistory == Absent
      ensures !confirmed ==> reports == old(reports) && env.reportsHistory == old(env.reportsHistory)
    {
      if confirmed {
        reports := [];
        env.reportsHistory := Absent;
      }
    }

    /** Clicking a saved chat makes its messages the active transcript. */
    method OpenChat(session: ChatSession)
      modifies env`chatHistory
      ensures env.chatHistory == Saved(session.messages)
    {
      env.chatHistory := Saved(session.messages);
    }
  }
}
