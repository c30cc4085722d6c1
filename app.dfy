/** App.tsx: the theme, voice dictation into the case description, and the
    submission of a case for analysis, which stores the result locally and,
    for a signed-in user, in the remote `reports` table. */
module AppComponent {
  import opened Records
  import opened JsText
  import opened Storage

  const Dark := "dark"
  const Light := "light"
  const DescribeSituation := "Please describe your situation in detail."
  const TryAgain := "An error occurred. Please try again."

  /** The theme initialiser: any non-empty saved string is used as it is
      (it is not checked against `light` and `dark`); otherwise `dark`. */
  function InitialTheme(saved: Option<string>): (theme: string)
    ensures theme != ""
    ensures saved == None || saved == Some("") ==> theme == Dark
  {
    if saved.Some? && saved.value != "" then saved.value else Dark
  }

  /** The header's theme switch: `light` becomes `dark`, anything else `light`. */
  function ToggledTheme(theme: string): (next: string)
    ensures next == Light || next == Dark
    ensures next == Dark <==> theme == Light
  {
    if theme == Light then Dark else Light
  }

  /** The saved theme is read back as itself on the next start. */
  lemma ThemeSurvivesReload(theme: string)
    requires theme == Light || theme == Dark
    ensures InitialTheme(Some(theme)) == theme
  {
  }

  /** Toggling twice restores a `light` or `dark` theme; from any other saved
      string it settles on `dark`. */
  lemma ToggleTwice(theme: string)
    ensures theme == Light || theme == Dark ==> ToggledTheme(ToggledTheme(theme)) == theme
    ensures theme != Light && theme != Dark ==> ToggledTheme(ToggledTheme(theme)) == Dark
  {
  }

  /** The dictation join: the old description, a separating space when it
      is non-empty, then the recognised transcript. */
  function JoinTranscript(description: string, transcript: string): (joined: string)
    ensures |joined| == |description| + |transcript| + (if description == "" then 0 else 1)
    ensures joined[..|description|] == description
    ensures joined[|joined| - |transcript|..] == transcript
    ensures description != "" ==> joined[|description|] == ' '
  {
    description + (if description != "" then " " else "") + transcript
  }

  /** The two cases of the join, as whole strings. */
  lemma JoinTranscriptCases(description: string, transcript: string)
    ensures description == "" ==> JoinTranscript(description, transcript) == transcript
    ensures description != "" ==> JoinTranscript(description, transcript) == description + " " + transcript
  {
  }

  /** What the analysis service delivered: a result, or a thrown error. */
  datatype AnalysisResult = Analyzed(analysis: Analysis) | AnalysisFailed

  /** The awaited remote insert: the row was stored, the client returned an
      error object (which the code does not look at), or the call threw. */
  datatype InsertResult = Inserted | Rejected | Threw

  /** What a `handleSubmit` waiting on the analysis service captured when it
      started: the submission and the signed-in user of that render. */
  datatype Pending = Pending(submission: Submission, user: Option<UserId>)

  /** The record that `handleSubmit` stores locally. */
  function StoredItem(p: Pending, a: Analysis, id: Id, now: Millis): (item: Report)
    ensures !item.isCloud && item.id == id && item.timestamp == now
    ensures item.submission == p.submission && item.analysis == a
  {
    Report(id, now, p.submission, a, false)
  }

  class App {
    const env: Environment
    /** The form: category, description and urgency. */
    var submission: Submission
    var loading: bool
    var error: Option<string>
    var analysis: Option<Analysis>
    var user: Option<UserId>
    var theme: string
    /** The submission in flight, if any. */
    var pending: Option<Pending>

    /** `loading` is set exactly while a submission waits for its analysis. */
    ghost predicate Valid()
      reads this
    {
      loading <==> pending.Some?
    }

    /** The initial state, and the effect that saves the theme on mount. */
    constructor (env: Environment)
      modifies env`theme
      ensures Valid() && this.env == env
      ensures theme == InitialTheme(old(env.theme)) && env.theme == Some(theme)
      ensures submission == Submission(FalseCase, "", Medium)
      ensures !loading && error == None && analysis == None && user == None
    {
      this.env := env;
      submission := Submission(FalseCase, "", Medium);
      loading, error, analysis, user, pending := false, None, None, None, None;
      theme := InitialTheme(env.theme);
      new;
      env.theme := Some(theme);
    }

    /** The auth listener: `setUser(session?.user ?? null)`. */
    method SyncUser()
      modifies this`user
      ensures user == env.session
    {
      user := env.session;
    }

    /** The header's toggle, then the effect that saves the new theme. */
    method ToggleTheme()
      modifies this`theme, env`theme
      ensures theme == ToggledTheme(old(theme)) && env.theme == Some(theme)
    {
      theme := ToggledTheme(theme);
      env.theme := Some(theme);
    }

    /** The speech recogniser's result handler: only the description changes. */
    method OnDictation(transcript: string)
      modifies this`submission
      ensures submission.description == JoinTranscript(old(submission.description), transcript)
      ensures submission.caseType == old(submission.caseType)
      ensures submission.urgency == old(submission.urgency)
    {
      submission := submission.(description := JoinTranscript(submission.description, transcript));
    }

    /** `handleSubmit` up to the awaited analysis call. A blank description
        sets the error and returns without calling the service or touching
        storage; otherwise `loading` is set and the submission is sent.
        The submit button is disabled while loading, so no second
        submission starts while one is in flight. */
    method HandleSubmit() returns (request: Option<Submission>)
      requires Valid() && !loading
      modifies this`loading, this`error, this`pending
      ensures Valid()
      ensures Trim(submission.description) == "" ==>
                request == None && error == Some(DescribeSituation) && !loading
      ensures Trim(submission.description) != "" ==>
                request == Some(submission) && loading && error == None
                && pending == Some(Pending(submission, user))
    {
      if Trim(submission.description) == "" {
        error := Some(DescribeSituation);
        return None;
      }
      loading, error := true, None;
      pending := Some(Pending(submission, user));
      request := Some(submission);
    }

    /** `handleSubmit` after the analysis call returns or throws. The stored
        list is read (`JSON.parse` throws on a corrupt value), the new item is
        appended and written back, and only then, for a signed-in user, the
        row is inserted remotely. Every thrown error lands in the catch
        block, which sets the error and clears `loading`; a local write that
        already happened stays. */
    method FinishSubmit(result: AnalysisResult, id: Id, now: Millis, rowId: Id, insert: InsertResult)
      requires Valid() && pending.Some?
      modifies this`loading, this`error, this`analysis, this`pending
      modifies env`reportsHistory, env`reportRows
      ensures Valid() && !loading
      ensures env.reportsHistory == if result.AnalysisFailed? || old(env.reportsHistory).Corrupt? then old(env.reportsHistory)
                                    else Saved(Items(old(env.reportsHistory)) + [StoredItem(old(pending).value, result.analysis, id, now)])
      ensures env.reportRows == if result.Analyzed? && !old(env.reportsHistory).Corrupt?
                                   && old(pending).value.user.Some? && insert.Inserted?
                                then old(env.reportRows) + [ReportRow(rowId, old(pending).value.user.value,
                                                                      old(pending).value.submission, result.analysis, now)]
                                else old(env.reportRows)
      ensures result.AnalysisFailed? || old(env.reportsHistory).Corrupt?
              || (old(pending).value.user.Some? && insert.Threw?) ==>
                error == Some(TryAgain) && analysis == old(analysis)
      ensures result.Analyzed? && !old(env.reportsHistory).Corrupt?
              && !(old(pending).value.user.Some? && insert.Threw?) ==>
                error == old(error) && analysis == Some(result.analysis)
    {
      var p := pending.value;
      if result.AnalysisFailed? || env.reportsHistory.Corrupt? {
        Catch();
        return;
      }
      var a := result.analysis;
      var history := Items(env.reportsHistory);
      history := history + [StoredItem(p, a, id, now)];
      env.reportsHistory := Saved(history);
      if p.user.Some? {
        if insert.Threw? {
          Catch();
          return;
        } else if insert.Inserted? {
          env.reportRows := env.reportRows + [ReportRow(rowId, p.user.value, p.submission, a, now)];
        }
      }
      analysis, loading, pending := Some(a), false, None;
    }

    /** The catch block of `handleSubmit`. */
    method Catch()
      modifies this`loading, this`error, this`pending
      ensures Valid() && !loading && error == Some(TryAgain)
    {
      error, loading, pending := Some(TryAgain), false, None;
    }
  }
}
