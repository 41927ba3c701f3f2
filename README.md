# Campus Companion in Dafny

Campus Companion is a student portal built with Next.js. This project models the
parts of it that hold logic rather than markup, and proves what they promise:

- the Pomodoro timer of the productivity page (three modes, a countdown, a
  running flag and a completed-focus counter; one tick per second; automatic
  continuation into the next mode), its `MM:SS` formatter, and the lo-fi music
  player's track navigation and volume/mute coupling;
- the academic calculators: the grade-point table, CGPA from integer totals,
  the CGPA band and the "highest grade" fold, the internal-marks total, and the
  add/remove/edit handlers of the course and subject lists, whose `length + 1`
  ids can collide;
- the mock route handlers for notes, files and auth, each a module-level table
  modelled as a class field, with every response a `Response` datatype (status,
  `success` flag, data or message);
- the pure search and classification rules: the nested notes search with
  pruning (shared by the notes page and the notes API), the placement and drive
  searches, the drive's file-icon mapping and the chatbot's keyword-priority
  classifier.

`toLowerCase` is ASCII lower-casing (`Text.Lower`) and `includes` is substring
search (`Text.Includes`, proved equal to "occurs at some index" by
`Text.IncludesIff`). JavaScript's truncating `%` is `MusicPlayer.JsRem`.

Layout: `optional.dfy`, `http.dfy`, `seqs.dfy` and `text.dfy` hold the shared
vocabulary (Option, responses, filter/find, strings and digits); each other file
is one source file of the system: `pomodoro.dfy` and `player.dfy` for
`app/productivity/page.tsx`, `calculator.dfy`, `notes_search.dfy` (the notes
page), `notes_api.dfy`, `files_api.dfy`, `auth_api.dfy`, `chatbot.dfy`,
`placement.dfy` and `drive.dfy`.

Where the code state changes, the model is a class: `Pomodoro.Timer`,
`MusicPlayer.Player`, `Calculator.CalculatorPage`, `NotesApi.NotesStore`,
`FilesApi.FileStore` and `AuthApi.UserStore`. Each method's `ensures` gives the
new state as a function of the old one, and the lemmas about those functions
carry the properties.

Choices the model makes by following the code literally:
- the timer settings are a constant record in the code (25/5/15/4) that nothing
  changes, so no configuration error can occur; the model takes any positive
  settings and the page's defaults as `Pomodoro.DefaultSettings`;
- a tick with the timer running at zero completes the session (one extra effect
  run after the countdown reaches zero), so a 25-minute session takes 1500
  decrements and the completion is the next tick;
- a row edit in the calculator replaces the first row with the edited row's id,
  which is not always the edited row once ids have collided.

## Model

| member | source | states |
|---|---|---|
| Pomodoro.Initial | app/productivity/page.tsx:46-55 | the timer starts in focus, stopped, with count 0 and the full focus length |
| Pomodoro.TimerState.Complete | app/productivity/page.tsx:114-141 | completion moves focus to a break and a break to focus, sets the full length of the new mode, keeps the running flag, and keeps the countdown within the mode's length |
| Pomodoro.TimerState.Tick | app/productivity/page.tsx:81-97 | a tick keeps 0 <= timeLeft <= the mode's full length and changes nothing while stopped |
| Pomodoro.TimerState.TickEvent | app/productivity/page.tsx:88-92 | a tick reports a completion exactly when it completes the session, naming the finished and the new mode; otherwise mode and count are unchanged |
| Pomodoro.TimerState.Start | app/productivity/page.tsx:143-145 | start sets running and keeps mode, countdown and count |
| Pomodoro.TimerState.Pause | app/productivity/page.tsx:147-149 | pause stops and keeps mode, countdown and count |
| Pomodoro.TimerState.Reset | app/productivity/page.tsx:151-162 | reset stops and restores the full length of the current mode, mode and count unchanged |
| Pomodoro.TimerState.ChangeMode | app/productivity/page.tsx:164-176 | a mode change stops the timer and sets the chosen mode at its full length, count unchanged |
| Pomodoro.TickRule | app/productivity/page.tsx:84-92 | the countdown drops only while running with time left, by exactly one second with nothing else changed; running at zero completes |
| Pomodoro.RunKeepsInvariant | app/productivity/page.tsx:81-97 | every sequence of ticks, starts, pauses, resets, mode changes and skips keeps 0 <= timeLeft <= the mode's full length |
| Pomodoro.InitialRunKeepsInvariant | app/productivity/page.tsx:46-55 | the same bound holds for every run from the initial state |
| Pomodoro.TicksCountDown | app/productivity/page.tsx:84-87 | k ticks of a running timer with at least k seconds left lower the countdown by exactly k |
| Pomodoro.PausedTicksIdle | app/productivity/page.tsx:84-92 | any number of ticks of a stopped timer change nothing |
| Pomodoro.FirstFocusSession | app/productivity/page.tsx:81-97 | a started default focus session reaches 0 after 1500 ticks, still running; the next tick counts it and continues into a running 300-second short break |
| Pomodoro.CompletionCadence | app/productivity/page.tsx:99-141 | from focus, 2k completions return to focus with k more sessions counted, and completion 2k+1 is a long break iff the count it reaches is a multiple of the interval |
| Pomodoro.DefaultCadence | app/productivity/page.tsx:50-55 | with interval 4, sessions 1 to 3 are followed by short breaks and session 4 by a long break |
| Pomodoro.BreakCompletesToFocus | app/productivity/page.tsx:108-111 | completing a break returns to focus and does not count |
| Pomodoro.SkipMatchesCompletion | app/productivity/page.tsx:359-362 | skip lands on the mode and length completion would choose, but stops the timer and does not count the session |
| Pomodoro.FormatTime | app/productivity/page.tsx:178-183 | the text is minutes, ':', then exactly two digits |
| Pomodoro.FormatTimeRoundTrip | app/productivity/page.tsx:179-183 | reading back minutes * 60 + seconds gives the input, with the seconds field below 60 |
| Pomodoro.PaddedValue | app/productivity/page.tsx:182 | zero padding to two digits keeps the value of the digits |
| Pomodoro.Timer.constructor | app/productivity/page.tsx:46-55 | the timer object starts in the initial state |
| Pomodoro.Timer.HandleTimerComplete | app/productivity/page.tsx:114-141 | the fields become the completed state; the event names the finished and the next mode |
| Pomodoro.Timer.Tick | app/productivity/page.tsx:81-97 | the fields become the ticked state and the event is the tick's completion, if any |
| Pomodoro.Timer.StartTimer | app/productivity/page.tsx:143-145 | the fields become the started state |
| Pomodoro.Timer.PauseTimer | app/productivity/page.tsx:147-149 | the fields become the paused state |
| Pomodoro.Timer.ResetTimer | app/productivity/page.tsx:151-162 | the fields become the reset state |
| Pomodoro.Timer.ChangeTimerMode | app/productivity/page.tsx:164-176 | the fields become the state after the mode change |
| Pomodoro.Timer.SkipSession | app/productivity/page.tsx:359-362 | the fields become the skipped state |
| MusicPlayer.JsRem | app/productivity/page.tsx:215 | JavaScript `%`: the remainder lies strictly between -n and n and equals the Euclidean one for non-negative operands |
| MusicPlayer.NextIndex | app/productivity/page.tsx:213-216 | the next index is in [0, n), even from the not-found index -1 |
| MusicPlayer.PrevIndex | app/productivity/page.tsx:226-229 | the previous index is in [0, n), even from the not-found index -1 |
| MusicPlayer.NavigationInverse | app/productivity/page.tsx:213-237 | previous after next, and next after previous, return to the original index |
| MusicPlayer.IndexOfMember | app/productivity/page.tsx:214 | with distinct ids, looking up a track's id finds that track's position |
| MusicPlayer.NextThenPrevRestores | app/productivity/page.tsx:213-237 | previous track after next track, and the reverse, give back the original track |
| MusicPlayer.LofiTracksDistinct | app/productivity/page.tsx:27-33 | the five tracks have distinct ids |
| MusicPlayer.Player.constructor | app/productivity/page.tsx:57-62 | the player starts on the first track, paused, at position 0, volume 80, unmuted |
| MusicPlayer.Player.PlayPauseMusic | app/productivity/page.tsx:200-211 | play/pause flips the playing flag and changes nothing else |
| MusicPlayer.Player.NextTrack | app/productivity/page.tsx:213-224 | the track becomes the next one cyclically and the position resets to 0 |
| MusicPlayer.Player.PrevTrack | app/productivity/page.tsx:226-237 | the track becomes the previous one cyclically and the position resets to 0 |
| MusicPlayer.Player.HandleVolumeChange | app/productivity/page.tsx:239-252 | the volume is set, and muted is true exactly when the new volume is 0 |
| MusicPlayer.Player.ToggleMute | app/productivity/page.tsx:254-259 | toggling flips muted and keeps the volume |
| MusicPlayer.NextThenPrev | app/productivity/page.tsx:213-237 | pressing next then previous on the player leaves the same track, at position 0 |
| Calculator.GradeTable | app/calculator/page.tsx:34-46 | the 11 grades A+ to F map to 10 down to 0, every grade point is in [0, 10], and points determine the grade |
| Calculator.CalculateTotals | app/calculator/page.tsx:48-56 | the loop computes the sum of credits and the sum of credits times grade points |
| Calculator.GradePointsBounded | app/calculator/page.tsx:48-56 | with non-negative credits, 0 <= total grade points <= 10 * total credits |
| Calculator.CreditsPositive | app/calculator/page.tsx:48-56 | a non-empty list of positive credits has positive total credits |
| Calculator.RoundHundredths | app/calculator/page.tsx:57-58 | the result is the ratio in hundredths rounded to nearest, with the ratio's sign |
| Calculator.CgpaInRange | app/calculator/page.tsx:48-58 | with at least one course and positive credits, the CGPA is finite and between 0.00 and 10.00 |
| Calculator.EmptyCgpaIsNaN | app/calculator/page.tsx:48-58 | an empty course list divides 0 by 0 and gives NaN |
| Calculator.BandIsHighestReached | app/calculator/page.tsx:304-314 | the band is the highest one whose threshold (9, 8, 7, 6, 5) the CGPA reaches |
| Calculator.BandMonotone | app/calculator/page.tsx:304-314 | a higher CGPA never gets a lower band |
| Calculator.HighestFromFacts | app/calculator/page.tsx:335-340 | the fold returns a grade with maximal points among the start and the list, the earliest on ties |
| Calculator.HighestGradeIsFirstMaximum | app/calculator/page.tsx:335-340 | the highest grade is the first course grade with maximal points; an empty list shows "—" |
| Calculator.TotalInternal | app/calculator/page.tsx:122-124 | with every mark inside its input range the total is between 0 and 55, and 55 only when every mark is at its maximum |
| Calculator.WithoutId | app/calculator/page.tsx:85-92 | removal keeps exactly the rows whose id differs, each taken from the list and with its multiplicity: a row with another id keeps every copy, a row with the id keeps none |
| Calculator.WithoutIdKeepsOrder | app/calculator/page.tsx:113-120 | removal keeps the remaining rows in order |
| Calculator.ReplaceFirstWithId | app/calculator/page.tsx:190-195 | an edit replaces the first row with the edited row's id, at or before the edited row, and changes no other row or the length |
| Calculator.EditHitsOwnRow | app/calculator/page.tsx:374-378 | with distinct ids, an edit replaces exactly the edited row |
| Calculator.AppendCourse | app/calculator/page.tsx:76 | adding a course keeps the list and appends one course with id length + 1 and the form's fields |
| Calculator.AppendSubject | app/calculator/page.tsx:104 | adding a subject keeps the list and appends one subject with id length + 1 and the form's marks |
| Calculator.CourseIdCollision | app/calculator/page.tsx:76-92 | removing course 1 of four and adding gives a second id 4, and removing id 4 then deletes both |
| Calculator.RemoveCollidedCourses | app/calculator/page.tsx:85-92 | a remove deletes every row with the id, not only one |
| Calculator.EditAfterCollision | app/calculator/page.tsx:204-208 | after the collision, editing the newer id-4 row overwrites the older one and leaves the edited row unchanged |
| Calculator.CalculatorPage.constructor | app/calculator/page.tsx:18-32 | the page starts with the four sample courses, two sample subjects, empty forms and no CGPA |
| Calculator.CalculatorPage.SetNewCourse | app/calculator/page.tsx:248-266 | the course form takes the new value and nothing else changes |
| Calculator.CalculatorPage.AddCourse | app/calculator/page.tsx:66-83 | an empty name changes nothing and reports an error; otherwise one course is appended and the form is reset |
| Calculator.CalculatorPage.RemoveCourse | app/calculator/page.tsx:85-92 | the course list loses every row with the id and nothing else changes |
| Calculator.CalculatorPage.EditCourse | app/calculator/page.tsx:216-220 | the course list gets the edit as written and nothing else changes |
| Calculator.CalculatorPage.CalculateCgpa | app/calculator/page.tsx:48-64 | the shown CGPA becomes the rounded ratio of the totals and nothing else changes |
| Calculator.CalculatorPage.SetNewSubject | app/calculator/page.tsx:456-503 | the subject form takes the new value and nothing else changes |
| Calculator.CalculatorPage.AddSubject | app/calculator/page.tsx:94-111 | an empty name changes nothing and reports an error; otherwise one subject is appended and the form is reset |
| Calculator.CalculatorPage.RemoveSubject | app/calculator/page.tsx:113-120 | the subject list loses every row with the id and nothing else changes |
| Calculator.CalculatorPage.EditSubject | app/calculator/page.tsx:388-392 | the subject list gets the edit as written and nothing else changes |
| NotesSearch.SearchPrunesEmpty | app/notes/page.tsx:93-96 | the result has no semester without subjects and no subject without materials |
| NotesSearch.LocateInFilter | app/notes/page.tsx:89-91 | filtering a subject's materials and then listing them equals listing them and then filtering |
| NotesSearch.SubjectsMaterialsFilter | app/notes/page.tsx:86-93 | the same holds for a semester's subjects with empty subjects dropped |
| NotesSearch.SearchSelectsMatchingMaterials | app/notes/page.tsx:84-96 | the materials of the result are exactly the matching materials of the tree, in order and in their own semester and subject |
| NotesSearch.SearchResultsMatch | app/notes/page.tsx:89-91 | every listed material's name contains the query, ignoring case, and is in the tree |
| NotesSearch.SearchFindsEveryMatch | app/notes/page.tsx:89-91 | every matching material of the tree is listed |
| NotesSearch.SearchKeepsOrder | app/notes/page.tsx:93-96 | surviving semesters and subjects keep their relative order |
| NotesSearch.EmptyQueryKeepsEveryMaterial | app/notes/page.tsx:90-91 | an empty query keeps every material |
| NotesSearch.MaterialCountIsListed | app/notes/page.tsx:152 | a semester's count is the number of materials listed under it |
| NotesSearch.SemesterCountIsMatches | app/notes/page.tsx:152 | a semester card's count is the number of its materials that match the query |
| NotesSearch.NoMaterialsFoundIff | app/notes/page.tsx:138 | "No materials found" appears iff the query is non-empty and no material of the tree matches |
| NotesApi.SemesterIndex | app/api/notes/route.ts:116 | the index of the first semester with the id, or -1 iff none has it |
| NotesApi.SubjectIndex | app/api/notes/route.ts:121 | the index of the first subject with the id, or -1 iff none has it |
| NotesApi.Get | app/api/notes/route.ts:53-110 | GET answers 200 or 404; 404 only without a search and with a semester; with no search and no semester, all semesters |
| NotesApi.GetSearchListsMatches | app/api/notes/route.ts:62-78 | a non-empty search wins over the other parameters and lists exactly the matching materials |
| NotesApi.EmptySearchIsIgnored | app/api/notes/route.ts:62 | an empty search string behaves as no search |
| NotesApi.GetSubjectMaterials | app/api/notes/route.ts:79-91 | "Semester not found" iff no semester has the id; once the first semester with the id is found, 404 "Subject not found" iff it has no subject with the id, otherwise the materials of its first subject with that id |
| NotesApi.GetSemesterSubjects | app/api/notes/route.ts:92-99 | "Semester not found" iff no semester has the id; otherwise the subjects of the first semester with it |
| NotesApi.MaterialIdAt | app/api/notes/route.ts:129 | a material id is "mat" followed by the decimal digits of the clock reading |
| NotesApi.AppendMaterial | app/api/notes/route.ts:134 | the addressed subject gets the material at its end; every other subject and every id and name is unchanged |
| NotesApi.AddMaterial | app/api/notes/route.ts:112-144 | another action is 400 "Invalid action"; an unknown semester is 404 "Semester not found"; a known semester without the subject is 404 "Subject not found"; a failure changes nothing; a success appends the new material to the first subject with the id in the first semester with the id |
| NotesApi.AddMaterialSucceedsIff | app/api/notes/route.ts:116-126 | the add succeeds iff the action is addMaterial, a semester has the id and the first such semester has the subject |
| NotesApi.PostThenGetListsNewMaterial | app/api/notes/route.ts:79-136 | after an add, GET for the same semester and subject lists the old materials followed by the new one |
| NotesApi.SameMillisecondSameId | app/api/notes/route.ts:129 | two materials added within the same millisecond get the same id |
| NotesApi.NotesStore.constructor | app/api/notes/route.ts:4-51 | the store starts with the sample tree |
| NotesApi.NotesStore.Post | app/api/notes/route.ts:112-144 | the response and the new tree are those of the POST function |
| FilesApi.Get | app/api/files/route.ts:10-23 | GET lists exactly the stored files of user 1, every copy of each |
| FilesApi.GetKeepsOrder | app/api/files/route.ts:16 | the listing keeps the stored order |
| FilesApi.GetListsWholeTable | app/api/files/route.ts:13-16 | when every file belongs to user 1, the listing is the whole table |
| FilesApi.Upload | app/api/files/route.ts:25-51 | POST appends one file with id length + 1, user 1 and the given fields, keeping every existing file |
| FilesApi.UploadIsListed | app/api/files/route.ts:35-44 | after an upload, GET lists the old listing followed by the new file |
| FilesApi.Delete | app/api/files/route.ts:53-75 | DELETE succeeds iff a file of user 1 has the id; it then splices out the first such file; otherwise 404 "File not found" and no change |
| FilesApi.DeleteRemovesOne | app/api/files/route.ts:61-68 | a successful delete shrinks the table by one and keeps every other file |
| FilesApi.DuplicateIdAfterDelete | app/api/files/route.ts:36-68 | deleting file 1 and uploading gives a second id 3, and deleting 3 then removes only the older file |
| FilesApi.FileStore.constructor | app/api/files/route.ts:4-8 | the store starts with the three sample files |
| FilesApi.FileStore.Post | app/api/files/route.ts:25-51 | the response and the new table are those of the upload function |
| FilesApi.FileStore.DeleteFile | app/api/files/route.ts:53-75 | the response and the new table are those of the delete function |
| AuthApi.Public | app/api/auth/route.ts:17 | a response carries the user's id, name and email, and has no password field |
| AuthApi.Login | app/api/auth/route.ts:10-22 | login succeeds iff some user has both the email and the password, answering with that user's public fields and the token; otherwise 401 "Invalid credentials" |
| AuthApi.Signup | app/api/auth/route.ts:23-40 | a taken email gives 409 "User already exists" and no change; otherwise one user with id length + 1 is appended and returned without the password |
| AuthApi.Handle | app/api/auth/route.ts:6-47 | an action other than login or signup gives 400 "Invalid action"; only signup changes the table |
| AuthApi.HandleKeepsEmailsDistinct | app/api/auth/route.ts:25-33 | every request keeps the stored emails distinct |
| AuthApi.InitialEmailsDistinct | app/api/auth/route.ts:4 | the sample table has distinct emails |
| AuthApi.SignupThenLogin | app/api/auth/route.ts:12-39 | after a signup, login with the same email and password answers with the new user |
| AuthApi.SignupTwiceRefused | app/api/auth/route.ts:25-29 | signing up again with the same email is refused and changes nothing |
| AuthApi.UserStore.constructor | app/api/auth/route.ts:4 | the store starts with the sample user |
| AuthApi.UserStore.Post | app/api/auth/route.ts:6-47 | the response and the new table are those of the handler function |
| Chatbot.Classify | app/api/chatbot/route.ts:40-49 | placement iff the lowered message has a placement keyword; default iff it has none of the nine keywords |
| Chatbot.ClassifyIgnoresCase | app/api/chatbot/route.ts:41 | messages equal up to case get the same category |
| Chatbot.ClassifyLowered | app/api/chatbot/route.ts:41 | lower-casing a message first does not change its category |
| Chatbot.PlacementKeywordWins | app/api/chatbot/route.ts:43-44 | a placement keyword decides the category whatever else the message holds |
| Chatbot.NotesKeywordBeatsCgpa | app/api/chatbot/route.ts:45-46 | without a placement keyword, a notes keyword beats the cgpa keywords |
| Chatbot.CgpaIff | app/api/chatbot/route.ts:47-48 | cgpa iff a cgpa keyword and no placement or notes keyword |
| Chatbot.Responses | app/api/chatbot/route.ts:4-33 | every category has five answers |
| Chatbot.RandomIndex | app/api/chatbot/route.ts:53 | the drawn index is inside the list |
| Chatbot.Chat | app/api/chatbot/route.ts:35-59 | the answer is one of the chosen category's answers, with status 200 |
| Chatbot.EveryAnswerReachable | app/api/chatbot/route.ts:52-54 | each of the five answers comes out for some draw |
| Placement.FilterCompanies | app/placement/page.tsx:187-193 | a company is listed iff it is in the table and its name, role, location or a skill contains the query, ignoring case, as often as it occurs in the table |
| Placement.FilterKeepsOrder | app/placement/page.tsx:187 | the listing is a subsequence of the table |
| Placement.MatchIgnoresQueryCase | app/placement/page.tsx:188-192 | the query's case does not matter |
| Placement.EmptyQueryKeepsAll | app/placement/page.tsx:188-192 | an empty query lists every company |
| Placement.SkillFindsCompany | app/placement/page.tsx:191 | searching for one of a company's skills lists that company |
| Placement.EmptyStateText | app/placement/page.tsx:237-244 | the empty-state text quotes the query when it is non-empty and is the fixed text otherwise |
| Placement.EmptyStateNeedsQuery | app/placement/page.tsx:237 | with an empty query the empty state needs an empty table |
| Drive.FilterFiles | app/drive/page.tsx:109 | a file is listed iff it is in the table and its name contains the query, ignoring case, as often as it occurs in the table |
| Drive.FilterKeepsOrder | app/drive/page.tsx:109 | the listing is a subsequence of the table |
| Drive.EmptyQueryKeepsAll | app/drive/page.tsx:109 | an empty query lists every file |
| Drive.OnlyNameIsSearched | app/drive/page.tsx:109 | tables with the same names in the same order give listings with the same names, whatever the types, sizes and dates |
| Drive.FileIcon | app/drive/page.tsx:47-65 | pdf, docx, pptx and xlsx get the text icon, jpg and png the image icon, zip the archive icon, and every other type the gray default |
| Drive.IconsDistinguishDocuments | app/drive/page.tsx:47-65 | jpg and png share one icon; the four document types get four different colors |
| Drive.EmptyStateText | app/drive/page.tsx:176 | the empty-state text quotes the query when it is non-empty and is the fixed text otherwise |
| Drive.UploadButtonOnlyForEmptyDrive | app/drive/page.tsx:171-183 | the "Upload Files" button shows only with an empty query, which leaves the empty state only for an empty drive |

## Left out

- Scheduling: `setInterval` and the `useEffect` that arms it are replaced by an explicit tick; React's batching of state updates is not modelled.
- Audio: the `<audio>` element, `play`, `pause`, `volume / 100` and the playback position's progress are browser APIs; only the player's fields are kept.
- Toasts, JSX, styling and the progress-bar widths are presentation; `Calculator.CalculatorPage.AddCourse` and `AddSubject` report only which message kind they emit.
- Floating point: `calculateProgress` and the CGPA's `toFixed(2)` float rounding are not modelled; the CGPA is the exact ratio of the integer totals rounded to hundredths.
- Number parsing: `Number.parseInt(...) || 0` on the inputs is not modelled; credits and marks are taken as already parsed integers.
- Randomness: the quote rotation is left out; the chatbot's `Math.random()` is a parameter, the fraction num / den with 0 <= num < den.
- The chatbot's 500-millisecond `setTimeout` delay is left out.
- Clock: `Date.now()` for material ids and the upload date of a new file are parameters.
- HTTP and JSON plumbing: `NextResponse`, `request.json()`, URL parsing and the catch-all 500 "Server error" paths, including those thrown by a missing body field, are not modelled; body fields are strings (ids of the notes and files requests are options).
- Unicode: `toLowerCase` is ASCII lower-casing.
- The login modal and navigation bar are `fetch` wrappers and UI toggles; the footer, hero, features and home page are static markup.
- The notes page's per-subject count `subject.materials.length` is displayed directly and needs no model beyond the filtered tree.
