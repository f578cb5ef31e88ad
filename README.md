# Motion Physio: a verified model of the app's core rules

Motion Physio is a physiotherapy app: a React Native client and an Express/MongoDB server.
This project models the parts of it that decide things, and proves what they promise:

- **Pain Bingo** (`bingo_board.dfy`, `bingo_engine.dfy`). This is a 5x5 board of pain items.
  - Tapping a cell toggles it.
  - Completing a row, column or diagonal starts a three-step reward flow: a pre-exercise discomfort rating, an exercise, and a post-exercise rating.
  - The flow ends with an XP award of 20 plus 10 per point the discomfort went down.
  - The line table, the toggle, and the detection of new wins are pure functions and one loop.
  - The screen's state hooks are the fields of the class `PainBingo`. Each handler is a method proved equal to a pure step function. The invariants and scenarios are lemmas about that function.
- **Accounts** (`accounts.dfy`, `email_format.dfy`). These are the four server handlers:
  - registration, with its checks in order;
  - login, with its day streak and its list of login days;
  - the profile upsert, with its field-by-field merge;
  - the profile lookup.

  The user collection is a map from email to record, held by the class `UserStore`.
  - A bcrypt hash is the free constructor `Bcrypt(password)`.
  - A JWT is `Jwt(id)`.
  - A calendar day is an integer.

  The email check `^[^\s@]+@[^\s@]+\.[^\s@]+$` is a scan, proved equal to the pattern's meaning.
- **Sign-up screen** (`sign_up.dfy`). This covers:
  - the form checks and the request body;
  - how the reply text is read;
  - which alert each status or thrown error produces;
  - the `loading` flag, in the class `SignUpForm`.

  The result of `fetch` is a parameter. A lemma composes the screen with the server's `createUser`.
- **Pain-area alert** (`pain_area.dfy`). The high-pain alert opens once each time the pain level rises to 8. Four dismissal paths close it. Submitting navigates with default parameters. The state lives in the class `PainAreaScreen`.

`js_text.dfy` holds the JavaScript string operations the core relies on: `\s`, `trim`, ASCII `toLowerCase` and `includes`. `wrappers.dfy` holds `Option`.

Two behaviours of the code that are easy to miss:

- **Several lines completed by one tap.** Only the first line in table order is awarded. The others stay uncompleted, and the next select on the board detects them again while their cells stay selected. See `SelectAwardsFirstWinOnly`, `PendingLineIsDetectedAgain` and `SimultaneousWinScenario`.
- **Cell indices.** `handleCellPress` does not range-check the index. The model accepts any index in `Press`. `Enabled` restricts the taps the screen delivers to the 25 cells it renders, and `Inv` keeps every selected index among them.

One consequence of the code that the model makes visible: when a cell is removed, `handleCellPress` clears the highlighted line if that line is no longer complete. No reachable state takes that branch.
- The board is covered by a modal whenever a line is highlighted.
- `Inv` states that `winningLine` is set exactly while a reward modal is visible.
- So every tap the screen can deliver finds `winningLine` unset (`EnabledTapFindsNoHighlight`).

## Model

| member | source | states |
|---|---|---|
| BingoBoard.LineCells | PainBingoScreen.js:56-75 | each of the 12 lines has five cells on the board, listed in increasing order |
| BingoBoard.KeyIndex | PainBingoScreen.js:78 | every key has a position in the key order, and the key table at that position is that key |
| BingoBoard.LineTableIsGeometric | PainBingoScreen.js:56-75 | the literal table is exactly rows `i/5`, columns `i%5`, the main diagonal and the anti-diagonal |
| BingoBoard.AllIn | PainBingoScreen.js:244 | `every(... includes ...)` is true iff every index of the line is among the cells |
| BingoBoard.CheckBingoLine | PainBingoScreen.js:243-246 | returns the key iff all of the line's indices are selected, else null |
| BingoBoard.WinsAmongExactly | PainBingoScreen.js:252-268 | the wins among the first n keys are exactly the uncompleted complete lines before position n, in table order |
| BingoBoard.NewWinsExactly | PainBingoScreen.js:252-268 | the detected wins are exactly the lines not yet completed whose five cells are selected, in table order |
| BingoBoard.DetectBingoWins | PainBingoScreen.js:252-268 | the loop over the key table returns exactly the uncompleted complete lines, in table order |
| BingoBoard.NewWinsMonotone | PainBingoScreen.js:252-268 | more selected cells and a line still uncompleted keep that line among the detected wins |
| BingoBoard.Toggle | PainBingoScreen.js:284-286 | the tapped index changes membership; a removal shortens the list, and a newly selected index goes last |
| BingoBoard.Without | PainBingoScreen.js:284-285 | `filter(i !== x)` keeps exactly the other elements and no duplicates, and changes nothing when x is absent |
| BingoBoard.ToggleFlips | PainBingoScreen.js:284-286 | a tap flips the tapped cell's membership and no other cell's |
| BingoBoard.ToggleKeepsNoDup | PainBingoScreen.js:284-286 | the selection never holds a cell twice |
| BingoBoard.ToggleTwice | PainBingoScreen.js:284-286 | tapping a cell twice restores the selected set, and the exact list when the cell started unselected |
| BingoBoard.WithoutAppended | PainBingoScreen.js:284-286 | removing a just-appended cell gives back the list before it |
| BingoBoard.ToggleAllParity | PainBingoScreen.js:284-286 | after any sequence of taps a cell is selected iff its initial membership flipped an odd number of times |
| BingoBoard.SelectionIsOddTaps | PainBingoScreen.js:284-286 | from the empty board of line 217, the selected cells are those tapped an odd number of times |
| BingoEngine.Press | PainBingoScreen.js:282-320 | a tap toggles the selection and never touches XP, ratings or the later modals; only a select awards, at most one line, and an award highlights it, makes it the routine, opens the pre-check and adds 1 to the count; a select that awards nothing leaves the highlight as it was |
| BingoEngine.Step | PainBingoScreen.js:282-353 | only a tap changes the board; only finishing the post-check changes the XP, by exactly `XpEarned` of the two ratings |
| BingoEngine.XpEarned | PainBingoScreen.js:340-341 | XP is 20 when the discomfort did not go down, else 20 plus 10 per point of reduction, always a multiple of 10, at most 110 for ratings 1-10 |
| BingoEngine.InitialInv | PainBingoScreen.js:217-233 | the initial hook values satisfy the screen invariant |
| BingoEngine.AtMostTwelveLines | PainBingoScreen.js:56-75 | no more than 12 lines can ever be completed |
| BingoEngine.StepKeepsInv | PainBingoScreen.js:282-353 | every event the screen delivers (taps only while no modal of lines 460, 501, 550 is visible) keeps the invariant (no duplicate cells, count equals completed lines, at most one modal, highlight iff a modal, ratings 1-10, XP between 20 and 110 per finished flow) |
| BingoEngine.StepIsMonotone | PainBingoScreen.js:282-353 | no handler takes a completed line back or lowers the count or the XP |
| BingoEngine.DeselectOnlyTouchesSelectionAndHighlight | PainBingoScreen.js:309-317 | removing a cell changes only the selection, and clears the highlight exactly when the highlighted line is no longer complete |
| BingoEngine.EnabledTapFindsNoHighlight | PainBingoScreen.js:309-317 | in a reachable state, a tap the covered board lets through finds no highlighted line, and a deselect leaves none |
| BingoEngine.SelectAwardsFirstWinOnly | PainBingoScreen.js:291-307 | a select that completes lines awards only the first in table order (completed, highlighted, routine, pre-check, count+1), and the rest stay uncompleted and detectable |
| BingoEngine.PendingLineIsDetectedAgain | PainBingoScreen.js:291-307 | a line left pending by a simultaneous completion is detected by any later select while its cells stay selected |
| BingoEngine.StepFollowsPhases | PainBingoScreen.js:296-353 | the three modal flags follow the machine Idle, then PreCheck on a win, then Exercise, then PostCheck, then Idle; taps happen only in Idle |
| BingoEngine.RunKeepsInv | PainBingoScreen.js:282-353 | the invariant holds after any sequence of delivered events |
| BingoEngine.ReachableStates | PainBingoScreen.js:217-353 | from the initial state: at most one modal, count equal to completed lines and at most 12, XP 20-110 per finished flow |
| BingoEngine.NoWinBelowCellFour | PainBingoScreen.js:56-75 | cells 0-3 alone complete no line |
| BingoEngine.FirstWinIs | PainBingoScreen.js:252-268 | the first detected win is the earliest complete uncompleted line in table order |
| BingoEngine.NothingCompleteNoWins | PainBingoScreen.js:252-268 | with no complete line, detection returns nothing |
| BingoEngine.QuietTap | PainBingoScreen.js:282-294 | on a fresh board, a tap that completes no line only appends the cell |
| BingoEngine.TopRowScenario | PainBingoScreen.js:282-307 | tapping 0,1,2,3,4 wins row0 on the fifth tap and opens the pre-check |
| BingoEngine.FifthTopRowTap | PainBingoScreen.js:282-307 | the fifth top-row tap completes row0 only |
| BingoEngine.CornerTap | PainBingoScreen.js:282-307 | completing row0 and col0 with the shared cell 0 awards row0 and leaves col0 detectable |
| BingoEngine.PendingColumnTap | PainBingoScreen.js:282-307 | the next select (cell 6) awards the pending col0 |
| BingoEngine.SimultaneousWinScenario | PainBingoScreen.js:282-353 | row0 is awarded first, and col0 after row0's reward flow and one more tap |
| BingoEngine.RewardScenario | PainBingoScreen.js:338-353 | ratings 8 then 3 award 70 XP, reset both ratings to 5 and end the flow |
| BingoEngine.PainBingo.constructor | PainBingoScreen.js:217-233 | the hooks start at empty selection, no lines, no highlight, modals closed, ratings 5, XP 0, count 0 |
| BingoEngine.PainBingo.IsCellInWinningLine | PainBingoScreen.js:273-276 | true iff a line is highlighted and the cell lies on that row, column or diagonal; false off the board |
| BingoEngine.PainBingo.HandleCellPress | PainBingoScreen.js:282-320 | the handler's updates equal the step function for a tap |
| BingoEngine.PainBingo.SetPrePainRating | PainBingoScreen.js:479 | only the pre-check rating changes |
| BingoEngine.PainBingo.HandlePreCheckComplete | PainBingoScreen.js:328-331 | the pre-check closes and the exercise opens |
| BingoEngine.PainBingo.HandleExerciseComplete | PainBingoScreen.js:333-336 | the exercise closes and the post-check opens |
| BingoEngine.PainBingo.SetPostPainRating | PainBingoScreen.js:569 | only the post-check rating changes |
| BingoEngine.PainBingo.HandlePostCheckComplete | PainBingoScreen.js:338-353 | XP grows by exactly `XpEarned`, ratings reset to 5, the highlight clears and the post-check closes |
| EmailFormat.IsValidEmail | backend/Controller/Controller.js:26-27 | an accepted address has at least five characters, contains '@', and neither starts nor ends with '@' |
| EmailFormat.ValidEmailMatches | backend/Controller/Controller.js:26-27 | every address the scan accepts matches the pattern |
| EmailFormat.MatchingEmailIsValid | backend/Controller/Controller.js:26-27 | every address the pattern matches passes the scan |
| EmailFormat.EmailCheckIsPattern | backend/Controller/Controller.js:26-27 | the check holds iff: one '@' with a non-empty local part, no whitespace, and a '.' strictly inside the domain |
| EmailFormat.ValidEmailHasOneAt | backend/Controller/Controller.js:26-27 | an accepted address holds exactly one '@' |
| Accounts.RunLengthIsStreak | backend/Controller/Controller.js:108-127 | the run length is the number of consecutive days ending at the last login |
| Accounts.EmptyStoreValid | backend/models/Schema.js:8-12 | an empty collection satisfies the store invariant |
| Accounts.AddKeepsStoreValid | backend/Controller/Controller.js:48-51 | adding a record (as `createUser` and the `updateProfile` upsert do) under a fresh email with the next id keeps emails unique and ids distinct, and keeps histories consistent when the new record's is |
| Accounts.NewAccount | backend/Controller/Controller.js:48-65 | the created record has the next id, the request's name and email, a hash that the password matches, streak 0 and no login history |
| Accounts.Register | backend/Controller/Controller.js:11-80 | the checks in order give 503, 400 missing, 400 email, 400 short password, 400 duplicate; 201 iff all pass; only then is the record stored, and the reply shows id, name and email, never the password |
| Accounts.RegisterReplies | backend/Controller/Controller.js:11-80 | `createUser` answers only 201, 400 with one of its four reasons, or 503 |
| Accounts.RegisterKeepsStoreValid | backend/Controller/Controller.js:36-65 | registration keeps emails unique and ids distinct, and keeps a valid store valid |
| Accounts.DuplicateRegistrationRefused | backend/Controller/Controller.js:36-40 | registering the same email a second time gives 400 'User with this email already exists' |
| Accounts.NextStreak | backend/Controller/Controller.js:108-127 | first login gives 1, same day keeps the streak, the next day adds 1, any other gap (even negative) gives 1 |
| Accounts.AddLoginDate | backend/Controller/Controller.js:129-139 | today is appended iff it is not already there; today is always present afterwards |
| Accounts.RecordLogin | backend/Controller/Controller.js:108-145 | only streak, last login and login days change; the last login becomes today; the streak follows `NextStreak`; the login days become `AddLoginDate` of the old ones, so today is among them, existing days keep their order and the list grows by at most one |
| Accounts.Login | backend/Controller/Controller.js:88-158 | missing credentials give 400; an unknown email and a wrong password give the same 401 and message; 200 iff authenticated, recording the login and answering with a token for the account and the new streak |
| Accounts.RecordLoginKeepsHistory | backend/Controller/Controller.js:104-145 | on a clock that does not go back, login days stay strictly increasing, end at the last login, and the streak equals the run of consecutive days ending today |
| Accounts.AppendLaterDay | backend/Controller/Controller.js:117-139 | appending a later day keeps the days increasing and extends the run by one on the next day, else restarts it at 1 |
| Accounts.LoginKeepsStoreValid | backend/Controller/Controller.js:86-158 | a login keeps emails unique and ids distinct; when no last login lies after today it also keeps the histories consistent and none in the future |
| Accounts.BackwardsLoginBreaksHistory | backend/Controller/Controller.js:108-139 | a login dated before the last one is accepted with 200 and streak 1, and appends the earlier day, leaving the login days out of order |
| Accounts.SecondLoginSameDay | backend/Controller/Controller.js:115-139 | a second login on the same day changes nothing |
| Accounts.RegisterThenLogin | backend/Controller/Controller.js:94-102 | after registration (lines 44-51), logging in with the registered credentials succeeds with the new account's token; any other non-empty password gets 401 |
| Accounts.NewProfileAccount | backend/Controller/Controller.js:184-200 | a record created by the upsert has the next id, the email, a non-empty name, the temporary password's hash, streak 0 and no login history |
| Accounts.MergePersonal | backend/Controller/Controller.js:203-208 | only the six personal fields can change, and each of firstName, surname, gender (from `sex`), birthDate, height and weight is its old value overwritten by the request field |
| Accounts.MergeMedical | backend/Controller/Controller.js:209-214 | only the six medical fields can change, and each of the heart-surgery answer, its six-month flag and comment, and the fractures answer, its six-month flag and comment is its old value overwritten by the request field |
| Accounts.Overwrite | backend/Controller/Controller.js:203-214 | an absent request field keeps the stored value, `null` clears it, a value replaces it |
| Accounts.MergeProfile | backend/Controller/Controller.js:203-219 | identity, password and login history are untouched; each of the twelve profile fields is overwritten from its request field (`sex` into gender); name follows a non-empty firstName |
| Accounts.UpdateProfileSpec | backend/Controller/Controller.js:166-236 | 503 without a database, 400 without an email, else 200 with the merged record stored under the email, created first (new id) when unknown |
| Accounts.MergeNothingIsIdentity | backend/Controller/Controller.js:203-219 | a request that supplies no field leaves the record unchanged |
| Accounts.MergeProfileIdempotent | backend/Controller/Controller.js:203-219 | merging the same fields twice equals merging once |
| Accounts.UpdateProfileIdempotent | backend/Controller/Controller.js:184-223 | repeating an update leaves the collection, id counter and reply unchanged, even though a later clock changes the temporary password it would create |
| Accounts.UpdateProfileKeepsStoreValid | backend/Controller/Controller.js:184-221 | the upsert keeps emails unique and ids distinct, and keeps a valid store valid |
| Accounts.GetUserProfile | backend/Controller/Controller.js:247-286 | 503, then 400 for an empty email, 404 for an unknown one, 200 iff found, with the stored streak or 0 |
| Accounts.LookupAfterLogin | backend/Controller/Controller.js:265-285 | the profile lookup (streak at line 276) shows the streak the login just reported |
| Accounts.LookupAfterUpdate | backend/Controller/Controller.js:184-219 | after an update the lookup returns the supplied firstName, gender and heart-surgery answer, name equal to a non-empty firstName, and 'User' for a record created without one |
| Accounts.ApplyPersonalFields | backend/Controller/Controller.js:203-208 | the one-field-at-a-time overwrites of the personal fields equal the merge |
| Accounts.ApplyMedicalFields | backend/Controller/Controller.js:209-214 | the one-field-at-a-time overwrites of the medical fields equal the merge |
| Accounts.UserStore.constructor | backend/models/Schema.js:3-126 | the collection starts empty, with unique emails, distinct ids and consistent histories |
| Accounts.UserStore.CreateUser | backend/Controller/Controller.js:8-85 | the response and the new collection are those of `Register`; emails stay unique and ids distinct, and a valid store stays valid |
| Accounts.UserStore.LoginUser | backend/Controller/Controller.js:86-163 | accepts any day; the response and the new collection are those of `Login`; emails stay unique and ids distinct, and histories stay consistent when no last login lies after today |
| Accounts.UserStore.UpdateProfile | backend/Controller/Controller.js:166-241 | the response and the new collection are those of `UpdateProfileSpec`; emails stay unique and ids distinct, and a valid store stays valid |
| SignUp.ValidateSignUp | SignUpScreen.js:26-39 | an empty field first, then a password mismatch, then a password under 6; no alert iff all pass |
| SignUp.NormalizeEmail | SignUpScreen.js:72 | the sent email is never longer than the typed one, and is empty exactly when the typed one is all blanks |
| SignUp.NormalizedEmailShape | SignUpScreen.js:72 | the sent email has no whitespace at its ends and no upper-case ASCII letter |
| SignUp.NormalizeEmailIdempotent | SignUpScreen.js:72 | normalising the email twice equals normalising it once |
| SignUp.RequestBody | SignUpScreen.js:70-74 | name and password are sent as typed, and the email trimmed and lower-cased |
| SignUp.ValidFormMeetsServerChecks | SignUpScreen.js:26-39 | a form that passes its checks always meets the server's name, password and length checks |
| SignUp.BlankEmailRefusedByServer | SignUpScreen.js:26-27 | an all-blank email (trimmed at line 72) passes the form but is sent empty and refused by the server as a missing field |
| SignUp.ParseResponse | SignUpScreen.js:114-133 | a failed read, an empty text and non-JSON text give their fallback messages; JSON is used as parsed |
| SignUp.MessageOr | SignUpScreen.js:165 | the server's message when present and non-empty, else the fallback |
| SignUp.FailureMessage | SignUpScreen.js:165-175 | 503 and 409 have fixed texts whatever the body says; 400, 500 and other statuses prefer the server's message, each with its own default; never empty |
| SignUp.ErrorText | SignUpScreen.js:191 | a caught error's text is its message, else its name, else 'Unknown error'; never empty |
| SignUp.RethrownMessage | SignUpScreen.js:86-105 | an aborted or timed-out fetch is rethrown as the timeout message |
| SignUp.ClassifyError | SignUpScreen.js:188-211 | connection substrings first, then timeout, then 'JSON', else the raw text, each with its title |
| SignUp.AbortShowsTimeout | SignUpScreen.js:93-95 | an aborted or timed-out request always ends in the 'Timeout Error' alert |
| SignUp.NetworkFailureShowsConnectionError | SignUpScreen.js:98-102 | a network failure reported by fetch always ends in the 'Connection Error' alert |
| SignUp.CaughtErrorAlwaysHasText | SignUpScreen.js:188-211 | a caught error always has a text, so the generic fallback of the last branch is never shown |
| SignUp.SignUpResult | SignUpScreen.js:135-177 | a 2xx reply shows 'Success'; any other status shows 'Signup Failed' with the status's message; a thrown `fetch` shows the alert the catch block derives from the rethrown message |
| SignUp.SignUpAgainstServer | SignUpScreen.js:165-177 | against `createUser`: 201 shows success, 400 shows the server's reason, 503 the fixed database text; the server never answers 409 |
| SignUp.ServerReplyShown | SignUpScreen.js:114-177 | for each reply `createUser` can give, the alert the screen shows |
| SignUp.BeginSignUp | SignUpScreen.js:25-74 | the request goes out iff the checks pass, and its body is `RequestBody` |
| SignUp.SignUpForm.constructor | SignUpScreen.js:19-23 | all four inputs empty, not loading |
| SignUp.SignUpForm.SetFullName | SignUpScreen.js:239 | only the name input changes |
| SignUp.SignUpForm.SetEmail | SignUpScreen.js:250 | only the email input changes, also while a request is out |
| SignUp.SignUpForm.SetPassword | SignUpScreen.js:264 | only the password input changes |
| SignUp.SignUpForm.SetConfirmPassword | SignUpScreen.js:278 | only the confirmation input changes |
| SignUp.SignUpForm.HandleSignUp | SignUpScreen.js:26-74 | a failed check leaves loading as it was; otherwise loading turns on, the body is sent and the email of this render is kept for the success handler; the inputs are untouched |
| SignUp.SignUpForm.FinishSignUp | SignUpScreen.js:107-216 | every outcome shows the alert of `SignUpResult` and turns loading off |
| SignUp.SignUpForm.ConfirmSuccess | SignUpScreen.js:147-154 | OK clears the four inputs and opens login prefilled with the email as typed when the request was sent, not the input's current value |
| SignUp.EditEmailWhileSending | SignUpScreen.js:146-154 | submitting 'a@b.co', then typing 'z@b.co' while the request is out, then a 201: the login screen is prefilled with 'a@b.co' |
| JsText.TrimStart | SignUpScreen.js:72 | leading whitespace is removed and nothing else: the result is a suffix and starts with no whitespace |
| JsText.TrimEnd | SignUpScreen.js:72 | trailing whitespace is removed and nothing else: the result is a prefix and ends with no whitespace |
| JsText.Trim | SignUpScreen.js:72 | no whitespace is left at either end, the result is no longer, and a string without whitespace is unchanged |
| JsText.TrimBounds | SignUpScreen.js:72 | the trimmed string occurs in the original with only whitespace before and after it |
| JsText.TrimOfTrimmed | SignUpScreen.js:72 | trimming a string without whitespace at its ends changes nothing |
| JsText.LowerChar | SignUpScreen.js:72 | a lower-cased character is never an upper-case ASCII letter and is whitespace iff the original was |
| JsText.ToLower | SignUpScreen.js:72 | lower-casing keeps the length and lower-cases each character in place |
| JsText.Contains | SignUpScreen.js:98-100 | `includes` holds only for a string no longer than the one searched, and holds for every prefix of it |
| PainArea.Effect | PainArea.js:104-113 | latch set iff the level is 8 or more; the alert opens iff it was open or the level is high with the latch clear; levels unchanged |
| PainArea.PainStep | PainArea.js:104-145 | a pain move sets the pain level, a comfort move the comfort level; only a pain move to 8 or more can open the alert, and a dismissal always closes it |
| PainArea.EffectIdempotent | PainArea.js:104-113 | the effect's re-run after its own latch change does nothing |
| PainArea.InitialSettled | PainArea.js:96-113 | initial pain 3 and comfort 7, alert closed and latch clear are unchanged by the mount effect, so no alert fires on mount |
| PainArea.StepKeepsSettled | PainArea.js:104-113 | after every action (sliders and the dismissals at lines 132, 140, 257, 264) the latch is set exactly while the level is 8 or more |
| PainArea.SettledIsFixedPoint | PainArea.js:104-113 | a re-render that re-runs the effect on a settled state changes nothing |
| PainArea.AlertOpensOnRisingEdge | PainArea.js:104-112 | the alert opens exactly when the level rises from below 8 to 8 or more; a level that stays high does not reopen it, and a drop does not close it |
| PainArea.DismissClosesOnly | PainArea.js:131-145 | each dismissal (also lines 257 and 264) closes the alert and leaves the latch and levels unchanged |
| PainArea.OpenCountIsRisingEdges | PainArea.js:104-113 | over any sequence of actions, the alert opens once per rise of the pain level to 8 or more |
| PainArea.ParamOr | PainArea.js:126-127 | a missing or empty route parameter gives the default |
| PainArea.SubmitTarget | PainArea.js:125-128 | navigates to HomeScreen with the route's name and email, or 'User' and 'admin'; never empty |
| PainArea.PainAreaScreen.constructor | PainArea.js:91-113 | mounting gives pain 3, comfort 7, alert closed, latch clear |
| PainArea.PainAreaScreen.RunEffect | PainArea.js:104-113 | one run of the effect equals `Effect` |
| PainArea.PainAreaScreen.SetPainLevel | PainArea.js:104-113 | a pain-slider (line 208) move followed by the effect (and its re-run) equals the pain step |
| PainArea.PainAreaScreen.SetComfortLevel | PainArea.js:228 | only the comfort level changes |
| PainArea.PainAreaScreen.HandleFindPhysio | PainArea.js:131-137 | the alert closes and nothing else changes |
| PainArea.PainAreaScreen.HandleTryExercise | PainArea.js:139-145 | the alert closes and nothing else changes |
| PainArea.PainAreaScreen.CloseHighPainModal | PainArea.js:257-264 | the alert closes and nothing else changes |
| PainArea.PainAreaScreen.HandleSubmit | PainArea.js:115-129 | changes no state and returns the `SubmitTarget` navigation |

## Left out

- JavaScript dates. A day is an integer day number. Midnight truncation, time zones, DST, `toISOString` and the millisecond arithmetic of the streak are not modelled. `createdAt` (`Date.now`) is left out of the profile.
- Accounts.RecordLoginKeepsHistory, Accounts.LoginKeepsStoreValid, Accounts.UserStore.LoginUser: the streak equals the consecutive-day run only while no last login lies after today (`NotInFuture`). `loginUser` itself accepts a clock that went back and then resets the streak to 1. `Login` and `UserStore.LoginUser` do the same. That state breaks the history invariant (`BackwardsLoginBreaksHistory`), so `UserStore`'s class invariant holds only emails and ids, and history consistency is promised only after a login on a day no earlier than the last.
- bcrypt and jwt are free constructors: `Bcrypt(password)` and `Jwt(id)`. Salts, secrets and hash collisions are not modelled. `compare` is equality of the hashed password.
- MongoDB. The collection is a map keyed by email, and `_id` comes from a counter.
  - Exceptions from `findOne`, `create` or `save` become 500 replies in the source. They are not modelled, nor is the record `updateProfile` leaves behind when its second save fails.
  - Mongoose casts (a `birthDate` string stored as a `Date`, `new Date(null)`, non-string request values) are not modelled. A birth date is kept as the string that was sent.
  - `null` and absent fields are both stored as `None`.
- `createUser` stores further pass-through fields (age, activity level, goal, health conditions, medications, allergies, bio data, location, client id). The model keeps only height, weight, gender and birth date.
- Accounts.UserStore.CreateUser, Accounts.UserStore.UpdateProfile: the MongoDB connection state is a parameter (`connected`). The server's connection test and startup are not part of this model.
- The sign-up screen's connection test before the request is not modelled. Its failure is caught and ignored, so it changes no outcome. The 15-second abort timer appears only as an `AbortError` result of `fetch`.
- SignUp.ParseResponse: `JSON.parse` of the texts `null` or a number yields a value without `message`. For `null`, reading `data.message` throws; that path is not modelled, and the parse is given as an optional message. The fallback 'Unknown error occurred' on the non-JSON branch is unreachable, because that branch already has a non-empty text.
- Lengths are counted in characters, not UTF-16 code units. `toLowerCase` is modelled on ASCII letters only.
- Slider arithmetic: `CustomSlider`'s position-to-value computation and `Math.round` are floating point. The model receives the pain level already rounded. The Bingo sliders deliver whole ratings from 1 to 10 (`step={1}`).
- Rendering, styles, routine texts, the pain-item labels, navigation plumbing, AboutYouScreen, PhysioConsult, QuickReliefScreen and WelcomeScreen are UI with no stateable rules.
- Console logging is not modelled.
