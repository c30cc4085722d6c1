# LegalGuard-AI history and transcript bookkeeping, in Dafny

LegalGuard-AI is a React single-page app that analyses a user's legal
situation with a language model. Around the model calls, three components
keep the user's history in the browser's `localStorage` and, for a
signed-in user, in two tables of a hosted database:

- `App.tsx` submits a case for analysis. It stores the result in the
  local reports list and, when someone is signed in, inserts a row into the
  remote `reports` table. It also keeps the light/dark theme and appends
  dictated speech to the case description.
- `components/HistoryView.tsx` lists the local reports and chat sessions
  followed by the signed-in user's remote ones, each tagged `isCloud`. It
  deletes a report, clears the local report history, and reopens a saved
  chat.
- `components/LegalQA.tsx` runs the question-and-answer chat. It restores
  and persists the active transcript, sends a question with the earlier
  turns as history, saves the transcript as a titled session, and starts a
  new chat.

The model keeps that structure:

| file | module | contents |
|---|---|---|
| `records.dfy` | `Records` | the stored records. A localStorage key holding a JSON list is a `Slot`: absent, a parsed list, or text that `JSON.parse` rejects. |
| `lists.dfy` | `Lists` | `Array.prototype.filter` and its laws. |
| `js_text.dfy` | `JsText` | `String.prototype.trim` over ECMAScript's whitespace set. |
| `storage.dfy` | `Storage` | the shared `Environment`: the four localStorage keys, the two remote tables and the auth session. It also holds the remote queries. |
| `app.dfy` | `AppComponent` | class `App`: theme, dictation, and `handleSubmit` split at its `await`. |
| `history_view.dfy` | `HistoryComponent` | class `HistoryView`: `fetchData`, `deleteReport`, `clearAllHistory`, the saved-chat click. |
| `legal_qa.dfy` | `QAComponent` | class `LegalQA`: mount, persistence effect, `saveCurrentSession`, `handleSend` split at its `await`, New Chat, dictation. |
| `scenarios.dfy` | `Scenarios` | runs of the components over one environment. A report submitted signed out is listed on reload. Signed in, it is listed twice, and deleting the cloud copy keeps the local one. A one-question chat is saved under its question as title. |

Each component is a class whose fields are its React state. The shared
`Environment` is an object the components update in place. The two
handlers whose `await` waits on the language model, `handleSubmit` and
`handleSend`, each become two methods, one on each side of that `await`.
The other async handlers, `fetchData`, `deleteReport` and
`saveCurrentSession`, are each one method that runs straight through
their remote calls. Fresh ids,
timestamps, the language model's answers, the outcome of each remote call
and the user's answer to `confirm` are parameters.

Strings are sequences of `char`, and text is taken to contain no
surrogate pairs: every character lies in the Basic Multilingual Plane, so
one `char` is one UTF-16 code unit and `length` and `substring` count as
in JavaScript.

### Behaviour as written

- **Unguarded parsing.** Every `JSON.parse` of a stored list is unguarded.
  A corrupt value makes the operation throw; it is not read as an empty
  list.
  - A history load then stops with `loading` still set.
  - `handleSubmit` lands in its catch block without writing.
  - `saveCurrentSession` rejects with nothing written.
  - The chat's mount throws inside a React effect, which unmounts the
    component; the model only records that nothing was restored.
- **Sequential remote reads.** The two remote reads of the history load
  are sequential awaits. A query
  that returns no data leaves that list local-only. A query that throws is
  not modelled.
- **Session title.** The title falls back to `Untitled Chat` when no
  message has the `user` role. It also falls back when the first such
  message has empty text.
- **Insert errors.** `handleSubmit` does not look at the error object its
  remote insert returns. Only an insert that throws reaches the catch
  block. The local write has already happened by then and stays.
- **Remote delete.** The remote delete matches on the row id alone, not
  on the owner.
- **No de-duplication.** A signed-in user's report is listed twice: once
  from local storage, once from the remote table.

## Model

| member | source | states |
|---|---|---|
| Records.Items | App.tsx:185 | a missing or empty key reads as the empty list and a saved one as its items; the value must parse. The same read is made at components/HistoryView.tsx:29 and 32 and components/LegalQA.tsx:64. |
| Lists.Filter | components/HistoryView.tsx:83 | the result is no longer than the input and holds exactly the input's elements that pass the predicate |
| Lists.FilterCount | components/HistoryView.tsx:83-85 | each passing element keeps its multiplicity; each failing one is dropped entirely |
| Lists.FilterCommutes | components/HistoryView.tsx:83-85 | filtering by id and then by origin gives the same list as the other order |
| JsText.TrimStartSplits | App.tsx:167 | `trim` removes a whitespace prefix and keeps a suffix of the input that starts with a non-whitespace character |
| JsText.TrimEndSplits | App.tsx:167 | `trim` removes a whitespace suffix and keeps a prefix of the input that ends with a non-whitespace character |
| JsText.Trim | App.tsx:167 | the trimmed text is no longer than the input, and when non-empty it neither starts nor ends with whitespace |
| JsText.TrimIsSlice | App.tsx:167 | `s.trim()` is a slice of `s` with only whitespace before and after it |
| JsText.TrimBlank | App.tsx:167 | `!s.trim()` holds exactly when every character of `s` is whitespace, in both directions |
| JsText.TrimIdempotent | components/LegalQA.tsx:75 | the trimmed question stored as the user message is itself trimmed |
| Storage.ReportsOf | components/HistoryView.tsx:36-39 | a row is selected exactly when it is in the table and belongs to the user |
| Storage.ChatsOf | components/HistoryView.tsx:41-44 | a chat row is selected exactly when it is in the table and belongs to the user |
| Storage.WithoutReport | components/HistoryView.tsx:81 | a row survives the remote delete exactly when its id differs, whoever owns it |
| AppComponent.InitialTheme | App.tsx:92-95 | the initial theme is never empty, and it is `dark` when nothing (or an empty string) is saved |
| AppComponent.ToggledTheme | App.tsx:307 | the toggle always yields `light` or `dark`, and yields `dark` exactly when the theme was `light` |
| AppComponent.ThemeSurvivesReload | App.tsx:92-95 | a saved `light` or `dark` theme is read back unchanged on the next start |
| AppComponent.ToggleTwice | App.tsx:307 | toggling twice restores `light` or `dark`; from any other saved string it settles on `dark` |
| AppComponent.JoinTranscript | App.tsx:146 | the joined description is the old description, then a space only when it was non-empty, then the transcript, stated as its length and three slices |
| AppComponent.JoinTranscriptCases | App.tsx:146 | joining onto an empty description gives exactly the transcript; otherwise it gives old + " " + transcript |
| AppComponent.StoredItem | App.tsx:176-181 | the stored record carries the given id and time, the captured submission and the analysis, and is not a cloud record |
| AppComponent.App.constructor | App.tsx:92-130 | the form starts empty in the `FalseCase` category with medium urgency, with no error, analysis or user; the initial theme is chosen and saved |
| AppComponent.App.SyncUser | App.tsx:117-123 | the component's user becomes the session's user |
| AppComponent.App.ToggleTheme | App.tsx:307 | the theme becomes its toggle and is saved under the theme key |
| AppComponent.App.OnDictation | App.tsx:140-148 | only the description changes, to the join of the old description and the transcript |
| AppComponent.App.HandleSubmit | App.tsx:165-174 | a blank description sets the "describe your situation" error and sends nothing; otherwise `loading` is set, the error is cleared, and exactly the form's submission goes out with the current user captured |
| AppComponent.App.FinishSubmit | App.tsx:174-203 | covers every outcome. A failed analysis or a corrupt stored list leaves storage and both tables untouched with the retry error set. Otherwise the stored list gains exactly the new record at its end, and absent counts as empty. A row with the user's id and the same timestamp is inserted only when a user is signed in and the insert succeeds. An insert that throws sets the error and keeps the local write. `loading` always ends false. |
| AppComponent.App.Catch | App.tsx:200-203 | the retry error is set and `loading` is cleared |
| HistoryComponent.CloudReport | components/HistoryView.tsx:48-54 | a remote report row is listed with its id, timestamp, submission and analysis, tagged `isCloud` |
| HistoryComponent.CloudChat | components/HistoryView.tsx:59-65 | a remote chat row is listed with its id, title, messages and timestamp, tagged `isCloud` |
| HistoryComponent.RemoteReports | components/HistoryView.tsx:34-39 | the report query yields data exactly when a user is signed in and it succeeds, and then exactly that user's rows |
| HistoryComponent.RemoteChats | components/HistoryView.tsx:41-44 | the chat query yields data exactly when a user is signed in and it succeeds, and then exactly that user's rows |
| HistoryComponent.MergeReports | components/HistoryView.tsx:46-56 | with no data the list is the local one. Otherwise its length is N+M, the first N are the local items unchanged, and the last M are the rows tagged `isCloud` in server order. |
| HistoryComponent.MergeChats | components/HistoryView.tsx:58-67 | the same merge for chat sessions, independently of the reports |
| HistoryComponent.RemoveById | components/HistoryView.tsx:83 | an entry stays exactly when its id differs from the deleted one, local or cloud, and every other entry keeps its multiplicity |
| HistoryComponent.RemoveByIdAppend | components/HistoryView.tsx:83 | deleting by id from a concatenation deletes from each part and keeps the parts in order, so the survivors keep their order |
| HistoryComponent.LocalOnly | components/HistoryView.tsx:85 | the written-back list holds no cloud record and keeps every local record with its multiplicity |
| HistoryComponent.NoDeduplication | components/HistoryView.tsx:47-55 | an id present locally and remotely is listed at two distinct positions |
| HistoryComponent.DeleteUniqueRecord | components/HistoryView.tsx:83 | with unique ids, deleting a record removes exactly it and keeps the others in order |
| HistoryComponent.LocalOnlyOfMerge | components/HistoryView.tsx:85 | after a merge, keeping the local records keeps exactly those of the stored list |
| HistoryComponent.PersistAfterDelete | components/HistoryView.tsx:83-85 | when the stored list held no cloud record, a delete after a load writes back exactly that list minus the deleted id, whatever the remote rows were |
| HistoryComponent.HistoryView.constructor | components/HistoryView.tsx:14-17 | the page starts with empty lists, loading, and no user |
| HistoryComponent.HistoryView.FetchData | components/HistoryView.tsx:19-76 | the load completes exactly when both stored lists parse. A failed load leaves the page loading with its lists unchanged. A completed one shows each stored list, absent counting as empty, merged with the signed-in user's remote rows. |
| HistoryComponent.HistoryView.DeleteReport | components/HistoryView.tsx:78-86 | a remote delete is issued exactly for a cloud record while a user is known. The listed entries lose every entry with that id. Storage is rewritten with the remaining non-cloud entries. |
| HistoryComponent.HistoryView.ClearAllHistory | components/HistoryView.tsx:88-93 | when confirmed, the listed reports and the reports key are cleared and nothing else changes; otherwise nothing changes |
| HistoryComponent.HistoryView.OpenChat | components/HistoryView.tsx:170 | the clicked session's messages become the active transcript |
| QAComponent.FirstUser | components/LegalQA.tsx:50 | the index found is the first message with the `user` role; none is found exactly when no message has that role |
| QAComponent.TitleText | components/LegalQA.tsx:50 | the title source is never empty |
| QAComponent.Truncate | components/LegalQA.tsx:51 | a text of at most 40 characters is kept. A longer one becomes its first 40 characters followed by `...`, 43 in all. |
| QAComponent.SessionTitle | components/LegalQA.tsx:50-51 | the session title is never empty and has at most 43 characters |
| QAComponent.SessionTitleOf | components/LegalQA.tsx:50-51 | the title is `Untitled Chat` when no message has the user role. Otherwise it is the truncated text of the first user message, or `Untitled Chat` when that text is empty. |
| QAComponent.HistoryRole | components/LegalQA.tsx:82 | the role sent is `user` exactly for a user message and `assistant` otherwise |
| QAComponent.ToHistory | components/LegalQA.tsx:82 | the history has one turn per message in order, with its text kept and every non-user role sent as `assistant` |
| QAComponent.ToHistoryAppend | components/LegalQA.tsx:82 | the history of a longer transcript extends the history of its prefix |
| QAComponent.AppendSpoken | components/LegalQA.tsx:37 | the input becomes the old input, a space (even when the input was empty), then the transcript |
| QAComponent.ReplyText | components/LegalQA.tsx:83-86 | the assistant message carries the answer, or the fixed error text when the question failed |
| QAComponent.LegalQA.constructor | components/LegalQA.tsx:19-25 | the chat starts with no messages, an empty input, not loading and no user |
| QAComponent.LegalQA.Mount | components/LegalQA.tsx:27-40 | the user becomes the session's. A saved transcript is restored. A corrupt one is reported as not restored, with nothing changed. The key itself keeps its value. |
| QAComponent.LegalQA.PersistTranscript | components/LegalQA.tsx:42-45 | a non-empty transcript is saved as the active one; an empty one leaves the key as it was |
| QAComponent.LegalQA.SaveCurrentSession | components/LegalQA.tsx:47-69 | an empty transcript changes nothing. Signed in, only a remote row is written, carrying the user, title, messages and time, and only when the insert succeeds. Signed out, the local sessions list gains exactly one entry at its end, or a corrupt list rejects the save with nothing written. |
| QAComponent.LegalQA.Send | components/LegalQA.tsx:71-83 | blank input or a question in flight changes nothing. Otherwise the trimmed input is appended as a user message, the input is cleared, `loading` is set, and the question goes out with the history of the transcript before it. |
| QAComponent.LegalQA.Complete | components/LegalQA.tsx:83-89 | exactly one assistant message is appended, the answer or the error text; `loading` ends false and the transcript is persisted |
| QAComponent.LegalQA.NewChat | components/LegalQA.tsx:98 | the transcript is emptied and the active transcript key removed |
| QAComponent.LegalQA.OnDictation | components/LegalQA.tsx:37 | only the input changes, to the old input, a space and the transcript |

## Left out

- Authentication and the hosted database client (`getSession`, `onAuthStateChange`, sign-in and sign-out): the session is a field of the environment, and the two tables are in-memory sequences read and written in place.
- AppComponent.App.SyncUser: the session is read synchronously, whereas the code reads it through a promise and an auth listener.
- QAComponent.LegalQA.Mount: the same applies to its session read.
- QAComponent.LegalQA.Mount: a corrupt transcript makes `JSON.parse` throw synchronously inside the mount effect, which unmounts the component tree (no error boundary is part of this model). The model only returns `restored == false` and does not represent the crash, so a caller can still use the chat afterwards.
- The language-model services `analyzeLegalProblem` and `askLegalQuestion`: they are outside the repository, and their result or failure is a parameter.
- Web Speech API setup, `alert`, scrolling and all rendering: these are browser and UI concerns. `window.confirm` becomes a boolean parameter of `ClearAllHistory`. The `alert`s of `saveCurrentSession` become its outcome value.
- `components/Header.tsx`, `components/AuthModal.tsx` and `vite.config.ts`: UI and build configuration. Header's only role here, invoking the theme toggle, is modelled as `ToggleTheme`.
- JSON serialisation: stored values are typed sequences, and a value that does not parse is the `Corrupt` slot. A `setItem` that throws because storage is full is not modelled.
- `crypto.randomUUID` and `Date.now`: they are parameters.
- React effect scheduling, overlapping handlers and unmount races are not modelled. Examples: an answer arriving after New Chat, or a second history load. Each method runs to completion on the state it finds.
- HistoryComponent.HistoryView.FetchData: a remote read or session read that throws (instead of returning no data) is not modelled. The model also does not state that the two reads happen in sequence, since nothing else runs between them here.
- Storage.ReportsOf: the server's row order is taken to be the order of the table sequence.
- Storage.ChatsOf: likewise, server order is taken to be table order.
- QAComponent.Truncate: text outside the Basic Multilingual Plane is not modelled. Such a character is two UTF-16 units in JavaScript, so `substring(0, 40)` may cut it in half, but it is a single `char` here.
- JsText.Trim: likewise text outside the Basic Multilingual Plane is not modelled; no character of the whitespace set lies there, so only the length counting differs.
- Records: the case category's labels other than `FalseCase`, and the fields of an analysis beyond its summary, are opaque.
