# WINGMAN chat assistant: chat panel and database, modelled in Dafny

WINGMAN is a Streamlit chat assistant. A logged-in user sees their
conversation with an AI model, can search it, start a "new chat" that hides
earlier turns, clear their history, upload files and send messages. Accounts,
chats, uploaded files and e-mail delivery logs are rows of an SQLite
database.

This project models two parts of it:

- **The database** (`src/db.py`), in `db.dfy`. The class `Db.Database` holds the four tables:
  - `users` is a map from e-mail address to a `User` record;
  - `chats`, `uploaded_files` and `email_logs` are sequences of rows in insertion order, with their `AUTOINCREMENT` counters.

  Every statement the application runs is a method that changes only the fields its `modifies` names. The readers are functions. Separate lemmas cover:
  - the one-shot verification and reset tokens;
  - the per-user chat listing and per-user delete;
  - timestamp order.
- **The chat panel** (`show_user_panel` in `app.py`), in `chat_panel.dfy`. The session state (`user`, `chat_start_index`) is the class `ChatPanel.Session`, and `Session.Rerun` is one run of the page. Within a run, the pure steps are functions with lemmas:
  - the cursor clamp and the visible window;
  - the search filter;
  - the send guard and text composition;
  - the five-turn context and the prompt.
- **Supporting modules.**
  - `text.dfy` models the Python string operations the panel uses: `strip()`, `lower()` and `q in s`.
  - `sequences.dfy` provides filtering, reversal and subsequence lemmas.
  - `wrappers.dfy` provides `Option`.

Things the code takes from outside become parameters:
- the clock (`now`, whole seconds);
- SHA-256 (`hash`);
- the AI backend (`complete`);
- the user's widget input for one run (`action`, `searchQuery`, `upload`).

Three behaviours of the code that are easy to miss:
- **Blank search queries.** A search box holding only blanks is a real query, because the test is `if search_query:` (app.py:185). The lemma `ChatPanel.BlankQueryFilters` shows that such a query hides every turn without a blank.
- **Already-verified accounts.** `verify_user_token` has a branch that accepts an account that is already verified and changes nothing (src/db.py:194-196). The model has it.
- **Shared tokens.** `verify_user_token` and `reset_user_password_by_token` act on whichever single row `fetchone()` returns when several accounts hold the same token. The model picks any holder. That the token cannot be replayed is proved under the hypothesis that tokens are unique.

The clock is assumed never to go back. `Db.Database.Valid` requires every table to be in timestamp order, and every method that stamps a row, up to `Session.Rerun`, requires `now` to be no earlier than any stored stamp (`Db.Database.ClockNotBehind`). Under that hypothesis, insertion order is an order `ORDER BY timestamp` may return.

## Model

| member | source | states |
|---|---|---|
| Db.Database.constructor | src/db.py:20-80 | the tables start empty |
| Db.Database.CreateUser | src/db.py:101-117 | succeeds exactly when the address has no account; then adds the unverified, unblocked `user`-role row with the given token expiring one hour from now; otherwise the table is unchanged; `count_registered_users` then returns one more exactly when it succeeded; token columns stay well formed |
| Db.NewUser | src/db.py:109-113 | the inserted row is unverified, unblocked, has the `user` role and the given password digest, holds the given token expiring one hour from now, has no reset token, and is well formed |
| Db.NewAccountVerificationWindow | src/db.py:109 | a new account holds its token, which is accepted exactly up to one hour after creation, the boundary second included |
| Db.CountAfterCreate | src/db.py:110-113 | adding an account for a new address raises the number of accounts by one (used by `CreateUser` for its count clause) |
| Db.Database.GetUser | src/db.py:120-126 | returns a record exactly when the address has an account, and then that account's row |
| Db.Database.IsUserVerified | src/db.py:129-131 | true exactly when the account exists and is verified |
| Db.Database.UpdateResetToken | src/db.py:134-142 | sets only the named account's reset token and expiry; no change when the address has no account |
| Db.ResetHolder | src/db.py:154-167 | for the selected account: refused exactly when now is past the expiry, then nothing changes; otherwise only that account changes, getting the new password with the token and expiry cleared |
| Db.Database.ResetUserPasswordByToken | src/db.py:145-167 | no holder of the token: false and no change; otherwise the outcome of `ResetHolder` for some holder of the token |
| Db.ResetTokenConsumed | src/db.py:160-164 | an accepted reset sets the new password and removes exactly that account from the token's holders |
| Db.ResetReplayRefused | src/db.py:148-152 | with unique reset tokens, no account holds an accepted token afterwards, so a second use returns false |
| Db.ResetAfterUpdate | src/db.py:134-167 | a token just issued by `update_reset_token` to one account, used by its expiry, selects that account and succeeds with the new password and no token left |
| Db.Database.VerifyUserCredentials | src/db.py:170-177 | true exactly when the account exists and its stored password equals the digest of the given password |
| Db.VerifyHolder | src/db.py:189-205 | for the selected account: accepted exactly when now is not past the expiry; an accepted unverified account becomes verified with its token and expiry cleared; in every other case the table is unchanged; no other account changes |
| Db.Database.VerifyUserToken | src/db.py:180-205 | no holder of the token: false and no change; otherwise the outcome of `VerifyHolder` for some holder of the token |
| Db.VerificationTokenConsumed | src/db.py:198-202 | an accepted token leaves the account verified and removes exactly that account from the token's holders |
| Db.VerificationReplayRefused | src/db.py:183-187 | with unique verification tokens, no account holds an accepted token afterwards, so a replay returns false |
| Db.Database.SaveChat | src/db.py:209-217 | appends exactly one row with the given fields, the next id and the current time; ids and timestamps stay in table order when the clock has not gone back |
| Db.Database.GetUserChats | src/db.py:220-226 | exactly the user's rows, in ascending timestamp order |
| Db.UserChatsExact | src/db.py:220-226 | a user's listing is, in table order, exactly that user's rows, each kept as often as it is stored |
| Db.UserChatsAfterSave | src/db.py:209-226 | after saving a chat, the owner's listing gains it at the end and every other listing is unchanged |
| Db.UserChatsAfterAppend | src/db.py:220-226 | the listing of a table extended by later rows is the old listing followed by the user's later rows |
| Db.UserChatsChronological | src/db.py:223 | when the table is in timestamp order, so is every listing, so table order is one order `ORDER BY timestamp ASC` may return |
| Db.SaveChatKeepsChronological | src/db.py:212-215 | appending a row stamped no earlier than all stored rows keeps the table in timestamp order |
| Db.Database.DeleteUserChats | src/db.py:229-234 | the new table is the old one without the user's rows, in the same order; ids stay increasing |
| Db.DeleteUserChatsSpec | src/db.py:232 | after the delete the user has no rows and every other user's listing is unchanged |
| Db.DeleteUserChatsIdempotent | src/db.py:232 | deleting twice is deleting once |
| Db.Database.SaveUploadedFile | src/db.py:252-260 | appends exactly one file row with the next id and the current time; ids and timestamps stay in table order |
| Db.Database.GetUploadedFiles | src/db.py:263-269 | exactly the user's files, newest first (reverse table order) |
| Db.Database.LogEmailStatus | src/db.py:273-281 | appends exactly one log row with the next id and the current time; ids and timestamps stay in table order |
| Db.Limit | src/db.py:287 | SQLite `LIMIT`: a negative limit or one at least the length keeps all rows, otherwise the first `limit` |
| Db.Database.GetEmailLogs | src/db.py:284-290 | the newest `limit` log rows, newest first, all of them when `limit` is negative |
| Db.Database.BlockUser | src/db.py:303-308 | sets only the named account's `blocked` flag; no change when the address has no account |
| Db.Database.CountRegisteredUsers | src/db.py:311-317 | the number of accounts |
| ChatPanel.Session.constructor | app.py:28-33 | a new session has no user and the cursor at 0 |
| ChatPanel.ClampCursor | app.py:125-126 | the clamped cursor is within the log; a cursor within the log is kept and one past its end becomes 0 |
| ChatPanel.ClampIdempotent | app.py:125-126 | clamping twice is clamping once |
| ChatPanel.Session.ClampTo | app.py:125-126 | the cursor becomes its clamp against the log length |
| ChatPanel.VisibleWindow | app.py:128 | the window is the log from the cursor on: length `total - start`, empty exactly when the cursor is at the end |
| ChatPanel.Session.ReadWindow | app.py:122-128 | reads the user's log, clamps the cursor to it and returns the window from the clamped cursor |
| ChatPanel.Session.StartNewChat | app.py:141-142 | "New Chat" puts the cursor at the end of the log |
| ChatPanel.NewChatShowsOnlyLaterTurns | app.py:122-142 | after "New Chat", whatever is appended later, the clamp keeps the cursor and exactly the user's later turns are visible |
| ChatPanel.Session.ShowPreviousChat | app.py:145-146 | "Show Previous Chat" puts the cursor at 0 |
| ChatPanel.Session.ClearChatHistory | app.py:149-151 | "Clear Chat History" deletes exactly the user's rows and puts the cursor at 0 |
| ChatPanel.ClearLeavesEmptyWindow | app.py:149-151 | after a clear the user's log and window are empty and the cursor stays at 0 |
| ChatPanel.Session.LogOut | app.py:154-156 | "Logout" forgets the user and puts the cursor at 0 |
| ChatPanel.CursorAfter | app.py:141-156 | a button leaves the cursor where it was, at 0 or at the end of the log; it stays within the log; without a button press it is unchanged |
| ChatPanel.Session.ApplyAction | app.py:141-157 | each button sets the cursor as `CursorAfter` says; only Logout clears the user and only Clear changes the table |
| ChatPanel.SearchFilter | app.py:185-192 | an empty query displays the window; any other query displays exactly the visible turns whose lower-cased input or response contains the lower-cased query |
| ChatPanel.SearchFilterSpec | app.py:185-192 | an empty query displays the window; any other query displays, in order, exactly the turns whose lower-cased input or response contains the lower-cased query, each as often as it occurs |
| ChatPanel.BlankQueryFilters | app.py:185 | a one-blank query is not empty: it hides every turn whose texts contain no blank |
| Text.Lower | app.py:186-189 | lower-casing keeps the length and maps each character by the ASCII rule |
| Text.Contains | app.py:189 | a needle found is no longer than the text; the empty needle is always found |
| Text.ContainsAt | app.py:189 | `q in s` holds exactly when `q` occurs in `s` at some offset |
| Text.ContainsChar | app.py:189 | a one-character query occurs exactly when that character does |
| Text.LeadingSpaces | app.py:226 | the number of leading characters `strip()` removes: all are whitespace and the next is not |
| Text.TrailingSpaces | app.py:226 | the number of trailing characters `strip()` removes: all are whitespace and the one before is not |
| Text.Strip | app.py:226 | the stripped text is no longer than the input and has no whitespace at either end |
| Text.StripSpec | app.py:225-226 | the stripped text is empty exactly when the input is all whitespace |
| Text.StripBetweenSpace | app.py:226-228 | text that is a stripped core between whitespace runs strips to that core |
| Text.StripIdempotent | app.py:226-228 | stripping twice is stripping once |
| ChatPanel.SendGuard | app.py:225 | a message goes out exactly when Send was pressed and the message is not all whitespace or an emoji was picked |
| ChatPanel.ComposeText | app.py:226-228 | the sent text never starts or ends with whitespace |
| ChatPanel.EmojiChoiceShape | app.py:217 | every picker option is empty or one non-whitespace character |
| ChatPanel.StripWithEmoji | app.py:228 | stripping a stripped text, a space and an emoji gives the emoji alone after an empty text, otherwise the text, a space and the emoji |
| ChatPanel.ComposeTextSpec | app.py:217-228 | the sent text is the stripped message without emoji, the emoji alone after a blank message, otherwise message, space and emoji; it is never empty when the send guard passes |
| ChatPanel.Context | app.py:230 | the context is the last `min(5, len(visible))` visible turns, in order |
| ChatPanel.History | app.py:231-234 | the history of the context, one exchange per turn, is empty exactly when the context is |
| ChatPanel.HistoryAppend | app.py:231-234 | the history of joined contexts is the joined histories |
| ChatPanel.Prompt | app.py:230-235 | the prompt always ends with the new message awaiting an answer, and is only that when nothing is visible |
| ChatPanel.SavedTurnEndsNextHistory | app.py:230-240 | the turn just saved is the last exchange in the next prompt's history |
| ChatPanel.PromptIgnoresOlderTurns | app.py:230-235 | the prompt depends only on the last five visible turns |
| ChatPanel.NewChatScenario | app.py:141-142 | after two turns, "New Chat" and one more turn, only the new turn is visible and the next prompt is that one turn followed by the new message |
| ChatPanel.SendTurn | app.py:225-240 | a passing send guard appends exactly one turn of the user, with the composed text and the model's reply to the prompt over the visible window; otherwise the table is unchanged |
| ChatPanel.FilesAfterRun | app.py:164-167 | a held upload whose text was extracted appends exactly one file row of the user with that text; otherwise the table is unchanged |
| ChatPanel.Session.StoreInputs | app.py:164-167 | a held upload with extracted text is stored; a passing send guard stores exactly one turn of the composed text and the model's reply to the prompt over the visible window; otherwise nothing is stored; each id counter advances by the rows it added |
| ChatPanel.SavedTurnVisibleNext | app.py:128 | the turn just saved appears at the end of the next run's window, after the turns visible before |
| ChatPanel.CursorWithinLogAfterRun | app.py:125-157 | a run other than Logout leaves the cursor within the user's log for the next run |
| ChatPanel.Session.RunPanel | app.py:118-240 | one run for a logged-in account: the new cursor, the new user, the page (the search over the window read at the top of the run), the new files and chats tables and the id counters |
| ChatPanel.Session.Rerun | app.py:113-240 | no user: stops with nothing changed, counters included; an address without an account: fails with nothing changed; otherwise the effect `RunPanel` states |

## Left out

- Streamlit rendering is not modelled. The theme radio, chat bubbles, auto-scroll, columns, forms, spinners and messages are presentation only (app.py:37-109, 132-139, 159, 173-200). The run returns the displayed turns as `Page.UserPanel`.
- `extract_file` is not part of this model. The upload widget is an `Option<FileUpload>` whose `extracted` field is `None` when extraction raised.
- The widget keeps a file across reruns, so the model stores it again on every run in which it is held, as the code does.
- `ai_chat_response` is the parameter `complete`. The case where the backend raises, which aborts the run before `save_chat`, is not modelled.
- SHA-256 is the parameter `hash`, with no properties assumed. UUID token generation and e-mail sending (src/email_utils.py, src/auth.py) are left out; tokens are inputs.
- Times are whole seconds passed in as `now`. The text formats of `strftime`/`strptime` are not modelled. Python's `datetime.now()` has microseconds, but stored expiries are truncated to seconds, so a check made during the expiry second itself can differ from the model by that fraction.
- Text.Lower: maps only the ASCII letters A-Z, because Python's full Unicode case mapping is out of scope.
- Text.IsSpace: follows `str.isspace` for the characters listed there and ignores other Unicode categories.
- Db.UserChatsChronological: `ORDER BY timestamp ASC` over second-resolution timestamps leaves rows written in the same second in no guaranteed order. The model returns insertion order. That is one of the allowed orders only because the clock never goes back, which `ClockNotBehind` assumes of every stamping call; the lemma shows the listing is then sorted by timestamp.
- Db.Database.GetUploadedFiles and Db.Database.GetEmailLogs: `ORDER BY timestamp DESC` is modelled as reverse insertion order. This also relies on the clock never going back.
- A clock that steps back (a system-time correction) is not modelled. The application would then list a later-saved turn before older ones; the model excludes that case by the `ClockNotBehind` precondition.
- Database plumbing is not modelled: `get_connection`, `create_tables` on an existing file, `safe_initialize` with its file renaming, `export_chats_to_csv` and `get_all_users` (src/db.py:13-97, 237-248, 294-300).
- `main`'s query-parameter handling, page routing and the admin panel (app.py:244 onward) are not modelled.
- Within a run the window is read before the sidebar acts (app.py:122-128). A clear or "New Chat" therefore changes what is shown only from the next run. The model keeps that snapshot: the prompt and the page use the window read at the top of the run.
- SQL errors, a closed connection and concurrent writers are not modelled; each statement is one atomic transition.
