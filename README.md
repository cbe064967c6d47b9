# KMRL Synapse front end: a Dafny model of its page state

KMRL Synapse is a React mock-up of a document-intelligence and team-chat
platform for a metro operator. Its logic is the state kept by four components
and changed by their event handlers. This project models that state and its
transitions, and proves what the handlers guarantee.

- **Dashboard** (`dashboard.dfy`). This is the document list. An upload puts a
  new `Processing` document without insights at the front of the list. A later
  analysis step completes every document whose id matches the upload's id, with
  canned insights. Opening a document in the viewer works only for completed
  documents. The page is the class `DashboardPage`. The list updates are the
  functions `NewDocument` and `CompleteById`, and lemmas cover frames,
  idempotence, commutation and "insights iff completed".
- **Chat hub** (`chat_hub.dfy`). This is an append-only message log, the input
  field and the "assistant is typing" indicator (the class `ChatHubPage`). A
  blank input is ignored. A non-blank input is appended untrimmed as the user's
  message, and an assistant reply is scheduled. The scheduled reply appends the
  assistant's message and turns the indicator off. The pure parts are the
  avatar initials, the send-button predicate and the online count.
- **Index page** (`index_page.dfy`). The screen state is `login`, `dashboard`
  or `chat`, plus an optional user. Four handlers change it, and `View` picks the
  screen, falling back to login. Suppose every handler runs only while the screen
  that receives it is shown. Then a user is present exactly outside `login`, and
  the fall-back is never taken.
- **Upload dialog** (`upload_modal.dfy`). The drag highlight, the selected file
  and the simulated upload live here. The upload's callback hands the selected
  file to the dashboard. The icon classifier picks image, then spreadsheet, then
  text.
- `strings.dfy` models the JavaScript string built-ins these rely on: `split`
  and `join` with a one-character separator, `includes`, and `trim` with the
  ECMAScript white-space set. `common.dfy` holds `Option`, `User` and `File`.

Each `setTimeout` callback becomes its own operation (`FinishAnalysis`,
`DeliverAssistantReply`, `FinishUpload`). A closure's captured value is kept
explicitly: the upload dialog's `pendingUploads` holds the files captured by
scheduled callbacks. The chat's ghost `pendingReplies` counts scheduled replies.
Ids (`Date.now()`) and timestamps are parameters. Ids need not be unique, so
completion touches every document with a matching id, as the code does.

The handlers do not guard themselves where the UI does the guarding. The send
button is disabled while the assistant is typing, and the upload and clear
buttons are hidden while an upload runs. So the raw handlers are modelled
unguarded, as written. Separate `PressSend`, `PressUpload` and `ClearSelection`
methods model the gated buttons, and they keep one reply or upload outstanding
at a time (`Serialized`).

Some facts about the code that the model keeps as they are:
- A document's status is `processing`, `completed` or `error`. There is no
  queued or failed status, and nothing sets `error`.
- There is no event or subscription layer. Components talk only through the
  callbacks they are handed.
- The analysis and the assistant never fail.
- Completion has no guard for documents that are already completed. Completing
  again rewrites the same insights, so it is still idempotent.
- Every non-blank message schedules a reply. Only the disabled send button keeps
  replies one at a time.

## Model

| member | source | states |
|---|---|---|
| `Strings.Split` | src/components/Dashboard.tsx:98 | `split` always yields at least one piece |
| `Strings.SplitJoin` | src/components/Dashboard.tsx:98 | joining the pieces of a split with the same separator gives back the string |
| `Strings.JoinSplit` | src/components/ChatHub.tsx:92 | joining pieces that hold no separator and splitting again gives back the pieces |
| `Strings.SplitPieces` | src/components/ChatHub.tsx:92 | no piece holds the separator, and every character of a piece occurs in the string |
| `Strings.Trim` | src/components/ChatHub.tsx:84 | trimming yields the empty string iff the input is all white space; a non-empty result starts and ends with a non-white-space character; the result is the piece of the input that only white space precedes and follows |
| `Strings.TrimKeepsInnerPiece` | src/components/ChatHub.tsx:84 | the trimmed string occurs in the input with only white space before and after it |
| `Dashboard.DocType` | src/components/Dashboard.tsx:98 | the type label is non-empty and has no `/`; without `/` in the MIME type it is "unknown" |
| `Dashboard.DocTypeSecondPiece` | src/components/Dashboard.tsx:98 | for `a/t…` with `t` ending at the next `/` or the end, the label is `t`, or "unknown" when `t` is empty |
| `Dashboard.DocTypeOfPdf` | src/components/Dashboard.tsx:98 | `application/pdf` is labelled "pdf" |
| `Dashboard.DocTypeOfEmptyPiece` | src/components/Dashboard.tsx:98 | an empty second piece (`image/`) is labelled "unknown" |
| `Dashboard.NewDocument` | src/components/Dashboard.tsx:95-101 | an uploaded document satisfies "insights iff completed" |
| `Dashboard.NewDocumentFields` | src/components/Dashboard.tsx:95-101 | the new document has the given id and timestamp, the file's name, status processing and no insights |
| `Dashboard.CompleteById` | src/components/Dashboard.tsx:108-120 | length kept; documents with another id unchanged; each matching document completed with the canned insights, keeping id, name, type and upload time |
| `Dashboard.CompleteByIdIdempotent` | src/components/Dashboard.tsx:108-120 | completing the same id twice equals completing it once |
| `Dashboard.CompleteByIdCommutes` | src/components/Dashboard.tsx:107-121 | completions of two ids give the same list in either order |
| `Dashboard.CompleteByIdAbsent` | src/components/Dashboard.tsx:108-120 | completing an id absent from the list leaves the list unchanged |
| `Dashboard.UploadPreservesWellFormed` | src/components/Dashboard.tsx:103 | prepending an upload keeps "insights iff completed" for every document |
| `Dashboard.CompletePreservesWellFormed` | src/components/Dashboard.tsx:108-120 | completion keeps "insights iff completed" for every document |
| `Dashboard.UploadThenComplete` | src/components/Dashboard.tsx:103-120 | after upload then completion of its id, the new document is first and completed, and the rest is the old list completed by that id |
| `Dashboard.OpenedHasInsights` | src/components/Dashboard.tsx:258 | a document that may be opened (completed, well-formed) has insights |
| `Dashboard.SeedWellFormed` | src/components/Dashboard.tsx:47-92 | the three initial documents satisfy "insights iff completed" |
| `Dashboard.DashboardPage.constructor` | src/components/Dashboard.tsx:45-92 | the page starts with the seed list, the dialog closed and no document open |
| `Dashboard.DashboardPage.OpenUploadModal` | src/components/Dashboard.tsx:222 | the upload button opens the dialog and keeps `Valid` |
| `Dashboard.DashboardPage.CloseUploadModal` | src/components/Dashboard.tsx:314 | the dialog's close action closes it and keeps `Valid` |
| `Dashboard.DashboardPage.HandleUploadComplete` | src/components/Dashboard.tsx:94-104 | the new document is prepended to the old list, the dialog closes, the invariant holds |
| `Dashboard.DashboardPage.FinishAnalysis` | src/components/Dashboard.tsx:107-121 | the list becomes its completion by the upload's id; the invariant holds |
| `Dashboard.DashboardPage.ClickDocument` | src/components/Dashboard.tsx:258 | a click opens the document only if it is completed; otherwise the open document stays |
| `Dashboard.DashboardPage.CloseViewer` | src/components/Dashboard.tsx:135 | the viewer's back action closes the viewer |
| `Dashboard.UploadThroughDialog` | src/components/Dashboard.tsx:94-121 | a file selected in the dialog, uploaded and analysed ends up first, completed, under its name, before the seed documents |
| `ChatHub.FirstChars` | src/components/ChatHub.tsx:92 | at most one character per word; empty iff every word is empty; each character comes from a word |
| `ChatHub.Initials` | src/components/ChatHub.tsx:92 | at most one initial per space-separated word, none a space, all from the name; empty iff the name is only spaces |
| `ChatHub.FirstCharsAppend` | src/components/ChatHub.tsx:92 | the initials of a list of words are the initials of its parts, in order |
| `ChatHub.FirstCharsOfWord` | src/components/ChatHub.tsx:92 | one word contributes its first character, or nothing when it is empty |
| `ChatHub.InitialsOfWord` | src/components/ChatHub.tsx:92 | a name without spaces has exactly its first character as initials |
| `ChatHub.InitialsOfLeadingWord` | src/components/ChatHub.tsx:92 | the initials of `w + " " + rest` are the first character of `w` (if any) followed by the initials of `rest` |
| `ChatHub.InitialsOfJoinedWords` | src/components/ChatHub.tsx:92 | for words without spaces, the initials of the words joined by single spaces are their first characters |
| `ChatHub.InitialsOfDemoUser` | src/components/ChatHub.tsx:92 | "Dr. Sarah Kumar" has initials "DSK" |
| `ChatHub.InitialsSkipEmptyWords` | src/components/ChatHub.tsx:92 | the empty word between two spaces adds no initial ("Rahul  Mehta" gives "RM") |
| `ChatHub.IsBlank` | src/components/ChatHub.tsx:84 | the send guard rejects exactly the inputs made only of white space |
| `ChatHub.CanSubmit` | src/components/ChatHub.tsx:286 | send is enabled iff no reply is awaited and the input has a non-white-space character |
| `ChatHub.OnlineMembers` | src/components/ChatHub.tsx:148 | the filter keeps only online members, every occurrence of each online member and no occurrence of any other |
| `ChatHub.OnlineMembersAppend` | src/components/ChatHub.tsx:148 | filtering a list filters its parts and keeps their order |
| `ChatHub.OnlineMembersLength` | src/components/ChatHub.tsx:148 | the filter has one entry per position holding an online member |
| `ChatHub.OnlineCount` | src/components/ChatHub.tsx:148 | the online count is the number of positions holding an online member, so never more than the number of members |
| `ChatHub.OnlineCountAll` | src/components/ChatHub.tsx:148 | the count equals the list length iff every member is online |
| `ChatHub.OnlineCountOfTeam` | src/components/ChatHub.tsx:113-118 | the sidebar's team has three members online |
| `ChatHub.ChatHubPage.constructor` | src/components/ChatHub.tsx:37-71 | the hub opens with the four seed messages, an empty input, no indicator and no scheduled reply |
| `ChatHub.ChatHubPage.HandleChange` | src/components/ChatHub.tsx:279 | typing replaces the input |
| `ChatHub.ChatHubPage.HandleSendMessage` | src/components/ChatHub.tsx:82-97 | blank input changes nothing; otherwise exactly one user message with the untrimmed input, the user's name and initials is appended, the input empties, the indicator turns on and one reply is scheduled |
| `ChatHub.ChatHubPage.DeliverAssistantReply` | src/components/ChatHub.tsx:100-110 | one assistant message is appended at the end, the indicator turns off, and the input is untouched |
| `ChatHub.ChatHubPage.PressSend` | src/components/ChatHub.tsx:283-287 | the send button submits iff `CanSubmit`, and at most one reply is outstanding, exactly while the indicator shows |
| `ChatHub.SendAndReceive` | src/components/ChatHub.tsx:82-110 | on an idle hub, typing a non-blank input, pressing send and receiving the reply appends the user's message and then the assistant's, and clears the input and the indicator |
| `ChatHub.Exchange` | src/components/ChatHub.tsx:82-110 | one send plus its reply leaves the seed log followed by the user's and the assistant's messages, with the indicator off |
| `IndexPage.View` | src/pages/Index.tsx:36-49 | login state shows login; chat is shown only in chat state with a user; dashboard only in dashboard state with a user; with no user, login |
| `IndexPage.Next` | src/pages/Index.tsx:18-34 | login stores the user and goes to the dashboard; logout clears it and goes to login; the two navigations change only the state |
| `IndexPage.ConsistentViewFollowsState` | src/pages/Index.tsx:36-49 | when a user is present exactly outside login, the screen follows the state and the fall-back is not taken |
| `IndexPage.ExposedHandlerKeepsConsistent` | src/pages/Index.tsx:36-45 | a handler given to the shown screen keeps "user present iff not login" |
| `IndexPage.AdmissibleRunsConsistent` | src/pages/Index.tsx:15-49 | any run of handlers, each from the screen shown at the time, keeps "user present iff not login" |
| `IndexPage.ChatWithoutUserFallsBack` | src/pages/Index.tsx:28-49 | navigating to chat with no user shows the login screen through the fall-back |
| `IndexPage.App.constructor` | src/pages/Index.tsx:15-16 | the page starts in login with no user |
| `IndexPage.App.HandleLogin` | src/pages/Index.tsx:18-21 | the user is stored and the dashboard shown |
| `IndexPage.App.HandleLogout` | src/pages/Index.tsx:23-26 | the user is cleared and the login shown |
| `IndexPage.App.HandleNavigateToChat` | src/pages/Index.tsx:28-30 | the state becomes chat; the user is kept |
| `IndexPage.App.HandleBackToDashboard` | src/pages/Index.tsx:32-34 | the state becomes dashboard; the user is kept |
| `UploadModal.GetFileIcon` | src/components/UploadModal.tsx:60-64 | "image" gives the image icon whatever else the type says; otherwise "spreadsheet" or "excel" gives the spreadsheet icon; otherwise the text icon |
| `UploadModal.IconOfImages` | src/components/UploadModal.tsx:61 | PNG and JPEG get the image icon |
| `UploadModal.IconOfXls` | src/components/UploadModal.tsx:62 | `application/vnd.ms-excel` gets the spreadsheet icon |
| `UploadModal.IconOfPdf` | src/components/UploadModal.tsx:60-63 | `application/pdf` gets the text icon |
| `UploadModal.ImageBeatsSpreadsheet` | src/components/UploadModal.tsx:61-62 | a type mentioning both image and spreadsheet gets the image icon |
| `UploadModal.UploadDialog.constructor` | src/components/UploadModal.tsx:12-14 | no highlight, no file, no upload |
| `UploadModal.UploadDialog.HandleDrag` | src/components/UploadModal.tsx:17-25 | dragenter and dragover set the highlight, dragleave clears it, other events leave it |
| `UploadModal.UploadDialog.HandleFile` | src/components/UploadModal.tsx:44-46 | selecting a file replaces any earlier selection |
| `UploadModal.UploadDialog.HandleDrop` | src/components/UploadModal.tsx:27-35 | a drop clears the highlight and selects the first file only if one was dropped |
| `UploadModal.UploadDialog.HandleChange` | src/components/UploadModal.tsx:37-42 | the picker selects the first chosen file only if one was chosen |
| `UploadModal.UploadDialog.HandleUpload` | src/components/UploadModal.tsx:48-53 | with no file nothing changes; otherwise the spinner turns on and the selected file is captured for the callback |
| `UploadModal.UploadDialog.FinishUpload` | src/components/UploadModal.tsx:54-57 | the callback hands over exactly the captured file and turns the spinner off |
| `UploadModal.UploadDialog.PressUpload` | src/components/UploadModal.tsx:149-164 | the upload button starts an upload iff a file is selected and none runs; at most one upload runs, exactly while the spinner shows |
| `UploadModal.UploadDialog.ClearSelection` | src/components/UploadModal.tsx:138-146 | the selection is cleared only while no upload runs |

## Left out

- Rendering, styling, icons as components, `scrollIntoView`, and React's hook and batching mechanics are left out. Each state update is one sequential step.
- Leaving the dashboard or the chat screen unmounts it. On the next visit its documents or messages start again from the seed data, so the log is append-only only while the screen stays mounted. A timer still pending at unmount updates nothing. The model keeps one page object per visit and does not model the unmount.
- The browser `File` is reduced to its name and MIME type. Its size is read only by `formatFileSize`, which is left out.
- `Dashboard.DashboardPage.FinishAnalysis`: completions are not tied to earlier uploads. In the code each upload schedules exactly one completion for its own id; the model lets a completion run for any id at any time, so every property proved about the page holds for that wider set of runs as well.
- Timer delays are left out. Each delayed callback is a separate operation, and wall-clock time plays no part.
- `Date.now()` ids and `new Date()` timestamps are parameters. Message timestamps are integers in milliseconds, and upload times are strings.
- `formatFileSize` (src/components/UploadModal.tsx:66-72) is not modelled, because it relies on floating point (`Math.log`, `Math.pow`, `toFixed`).
- src/components/LoginPage.tsx is not modelled. After a timer it signs in a demo user with a fixed name and employee id and the typed email, or a default email when none was typed. Any such user reaches the model as the `HandleLogin` argument, which accepts every `User`.
- src/components/DocumentViewer.tsx is not modelled. It only renders a document and its insights.
- JavaScript strings are UTF-16, so `n[0]` in the initials takes one code unit. Here characters are Unicode scalar values, so the model differs for a name word that starts with a character outside the Basic Multilingual Plane.
- A missing `FileList` (`files` being null) is modelled as an empty list, since the handlers treat both the same.
- The drop-zone handlers are attached only while no file is selected. The model lets them run at any time, as the handlers themselves do.
- After `onUpload` the dashboard closes the dialog, which unmounts it. Clearing `isUploading` on the unmounted dialog is modelled as a plain state change.
- `UploadModal.IconOfXls`: the icon of the `.xlsx` MIME type (`application/vnd.openxmlformats-officedocument.spreadsheetml.sheet`) is not stated as a concrete example. `GetFileIcon`'s contract covers it, because the type includes "spreadsheet".
- Dashboard statistics, the greeting's first name, the alert badge and the search and analytics buttons are not modelled. They are static text or buttons without handlers.
- `Dashboard.tsx` receives `onLogout` but never calls it. The model keeps it among the dashboard's handlers, and the consistency result holds either way.
