/**
 * The chat panel a logged-in user sees (`show_user_panel` in app.py): a
 * session cursor into the user's chat log selects the visible window, a
 * search box filters what is displayed, and a send form composes a message,
 * asks the model with the last few visible turns as context, and stores the
 * exchange.
 *
 * One page run is modelled as: read the log, clamp the cursor, take the
 * visible window, apply the one action the user took, display, and send.
 * The model backend is the parameter `complete`.
 */
module ChatPanel {
  import opened Wrappers
  import opened Sequences
  import opened Text
  import opened Db

  /** How many of the latest visible turns go into the prompt (`visible_chats[-5:]`). */
  const ContextTurns: nat := 5

  /** The emoji picker's options; the first, empty one means "no emoji". */
  const EmojiChoices: seq<string> :=
    ["", "\U{1F600}", "\U{1F602}", "\U{1F60D}", "\U{1F60E}", "\U{1F916}",
     "\U{1F64C}", "\U{1F44D}", "\U{1F44E}", "\U{2753}"]

  // ---------------- Visible window ----------------

  /** The self-healing clamp: a cursor past the end of the log (after a deletion elsewhere) restarts at 0. */
  function ClampCursor(start: nat, total: nat): (r: nat)
    ensures r <= total
    ensures start <= total ==> r == start
    ensures start > total ==> r == 0
  {
    if start > total then 0 else start
  }

  /** `all_chats_db[start:]`: the turns from the cursor on. */
  function VisibleWindow(all: seq<Chat>, start: nat): (v: seq<Chat>)
    requires start <= |all|
    ensures |v| == |all| - start
    ensures v == [] <==> start == |all|
    ensures forall i :: 0 <= i < |v| ==> v[i] == all[start + i]
  {
    all[start..]
  }

  // ---------------- Search ----------------

  /** A turn matches a lower-cased query when it occurs in its lower-cased input or response. */
  function MatchesQuery(q: string): Chat -> bool
  {
    (c: Chat) => Contains(Lower(c.userInput), q) || Contains(Lower(c.aiResponse), q)
  }

  /**
   * The displayed turns: all visible ones for an empty query, else those
   * whose lower-cased input or response contains the lower-cased query.
   */
  function SearchFilter(visible: seq<Chat>, query: string): (r: seq<Chat>)
    ensures query == "" ==> r == visible
    ensures query != "" ==> forall c :: c in r <==>
      c in visible && (Contains(Lower(c.userInput), Lower(query)) || Contains(Lower(c.aiResponse), Lower(query)))
  {
    if query == "" then visible
    else
      FilterMembers(visible, MatchesQuery(Lower(query)));
      Filter(visible, MatchesQuery(Lower(query)))
  }

  // ---------------- Sending ----------------

  /** Which widget the user acted on in this run; `Send` carries the form's values at submit. */
  datatype Action =
    | NoAction
    | NewChat
    | ShowPrevious
    | ClearHistory
    | Logout
    | Send(message: string, emoji: string)

  /** A message goes out only when Send was pressed with text that is not all whitespace, or with an emoji. */
  predicate SendGuard(action: Action)
    ensures SendGuard(action) <==> action.Send? && (!AllSpace(action.message) || action.emoji != "")
  {
    if action.Send? then
      StripSpec(action.message);
      Strip(action.message) != "" || action.emoji != ""
    else false
  }

  /**
   * The text stored and sent: the stripped message, followed by the emoji
   * when one was picked; it never starts or ends with whitespace.
   */
  function ComposeText(message: string, emoji: string): (text: string)
    ensures IsStripped(text)
  {
    var text := Strip(message);
    if emoji != "" then Strip(text + " " + emoji) else text
  }

  /** The last `ContextTurns` visible turns, oldest first. */
  function Context(visible: seq<Chat>): (ctx: seq<Chat>)
    ensures |ctx| == if |visible| < ContextTurns then |visible| else ContextTurns
    ensures ctx == visible[|visible| - |ctx|..]
  {
    if |visible| <= ContextTurns then visible else visible[|visible| - ContextTurns..]
  }

  /** One earlier exchange as it appears in the prompt. */
  function Turn(c: Chat): string
  {
    "User: " + c.userInput + "\nAI: " + c.aiResponse + "\n\n"
  }

  /** The exchanges of `ctx`, oldest first; empty exactly when there are none. */
  function History(ctx: seq<Chat>): (h: string)
    ensures h == "" <==> ctx == []
  {
    if ctx == [] then "" else Turn(ctx[0]) + History(ctx[1..])
  }

  /**
   * The prompt sent to the model: the context turns, then the new message
   * awaiting an answer; with nothing visible, only the new message.
   */
  function Prompt(visible: seq<Chat>, text: string): (p: string)
    ensures var tail := "User: " + text + "\nAI:";
      |tail| <= |p| && p[|p| - |tail|..] == tail
    ensures visible == [] ==> p == "User: " + text + "\nAI:"
  {
    History(Context(visible)) + "User: " + text + "\nAI:"
  }

  /**
   * The cursor an action leaves, from the clamped cursor `start` and the log
   * length read in this run: unchanged, the start of the log or its end.
   */
  function CursorAfter(action: Action, start: nat, total: nat): (r: nat)
    ensures r == start || r == 0 || r == total
    ensures start <= total ==> r <= total
    ensures action.Send? || action == NoAction ==> r == start
  {
    match action
    case NewChat => total
    case ShowPrevious => 0
    case ClearHistory => 0
    case Logout => 0
    case _ => start
  }

  /**
   * The `chats` table after the send step: a guarded send appends one turn of
   * `email`, whose reply is the model's answer to the prompt built from the
   * visible window and the stored text; otherwise the table is unchanged.
   */
  function SendTurn(chats: seq<Chat>, email: Email, action: Action, visible: seq<Chat>, nextChatId: nat,
                    complete: string -> string, now: Time): (r: seq<Chat>)
    ensures |r| == |chats| + (if SendGuard(action) then 1 else 0)
    ensures r[..|chats|] == chats
    ensures SendGuard(action) ==>
      r[|chats|].userEmail == email && r[|chats|].timestamp == now && r[|chats|].id == nextChatId &&
      r[|chats|].userInput == ComposeText(action.message, action.emoji) &&
      r[|chats|].aiResponse == complete(Prompt(visible, r[|chats|].userInput))
  {
    if SendGuard(action) then
      var text := ComposeText(action.message, action.emoji);
      chats + [Chat(nextChatId, email, text, complete(Prompt(visible, text)), None, now)]
    else chats
  }

  /** The `chats` table after a run's action and send: a clear removes the user's turns, a guarded send appends one. */
  function ChatsAfterRun(chats: seq<Chat>, email: Email, action: Action, visible: seq<Chat>, nextChatId: nat,
                         complete: string -> string, now: Time): seq<Chat>
  {
    if action == ClearHistory then WithoutUserChats(chats, email)
    else SendTurn(chats, email, action, visible, nextChatId, complete, now)
  }

  /** An upload widget holding a file; `extracted` is `None` when text extraction failed. */
  datatype FileUpload = FileUpload(fileName: string, fileType: string, extracted: Option<string>)

  /** The upload widget holds a file whose text was extracted. */
  predicate HoldsExtractedFile(upload: Option<FileUpload>)
  {
    upload.Some? && upload.value.extracted.Some?
  }

  /**
   * The `uploaded_files` table after a run: a held file whose text was
   * extracted is stored again, under `email`, with its extracted text;
   * otherwise the table is unchanged.
   */
  function FilesAfterRun(files: seq<UploadedFile>, email: Email, upload: Option<FileUpload>, nextFileId: nat,
                         now: Time): (r: seq<UploadedFile>)
    ensures |r| == |files| + (if HoldsExtractedFile(upload) then 1 else 0)
    ensures r[..|files|] == files
    ensures HoldsExtractedFile(upload) ==>
      r[|files|].userEmail == email && r[|files|].fileName == upload.value.fileName &&
      r[|files|].extractedText == upload.value.extracted.value && r[|files|].timestamp == now
  {
    if HoldsExtractedFile(upload)
    then files + [UploadedFile(nextFileId, email, upload.value.fileName, upload.value.fileType,
                               upload.value.extracted.value, now)]
    else files
  }

  // ---------------- Properties ----------------

  /** The clamp never moves a valid cursor, so clamping twice is clamping once. */
  lemma ClampIdempotent(start: nat, total: nat)
    ensures ClampCursor(ClampCursor(start, total), total) == ClampCursor(start, total)
  {
  }

  /**
   * After "New Chat" at a log of the user's turns, and any rows appended
   * afterwards, the clamp keeps the cursor and exactly the user's later
   * turns are visible, in the order they were stored.
   */
  lemma NewChatShowsOnlyLaterTurns(chats: seq<Chat>, later: seq<Chat>, e: Email)
    ensures var start := |UserChats(chats, e)|;
      var all := UserChats(chats + later, e);
      ClampCursor(start, |all|) == start && VisibleWindow(all, start) == UserChats(later, e)
  {
    UserChatsAfterAppend(chats, later, e);
  }

  /** A turn saved at the end of the log is visible in the next run, after the turns visible before. */
  lemma SavedTurnVisibleNext(all: seq<Chat>, start: nat, c: Chat)
    requires start <= |all|
    ensures ClampCursor(start, |all + [c]|) == start
    ensures VisibleWindow(all + [c], start) == VisibleWindow(all, start) + [c]
  {
    assert (all + [c])[start..] == all[start..] + [c];
  }

  /** "Clear Chat History" leaves the user an empty log with the cursor at its start. */
  lemma ClearLeavesEmptyWindow(chats: seq<Chat>, e: Email)
    ensures var all := UserChats(WithoutUserChats(chats, e), e);
      all == [] && ClampCursor(0, |all|) == 0 && VisibleWindow(all, 0) == []
  {
    DeleteUserChatsSpec(chats, e, e);
  }

  /**
   * The displayed turns are the visible ones for an empty query; for any
   * other query they are, in order, exactly the visible turns whose input or
   * response contains the query, ignoring case, each kept as often as it occurs.
   */
  lemma SearchFilterSpec(visible: seq<Chat>, query: string)
    ensures IsSubsequence(SearchFilter(visible, query), visible)
    ensures query == "" ==> SearchFilter(visible, query) == visible
    ensures query != "" ==>
      (forall c :: multiset(SearchFilter(visible, query))[c] ==
         if Contains(Lower(c.userInput), Lower(query)) || Contains(Lower(c.aiResponse), Lower(query))
         then multiset(visible)[c] else 0)
  {
    if query == "" {
      SubsequenceReflexive(visible);
    } else {
      FilterIsSubsequence(visible, MatchesQuery(Lower(query)));
      FilterMultiset(visible, MatchesQuery(Lower(query)));
    }
  }

  /**
   * A query of one blank is a real query, not an empty one: it hides every
   * visible turn whose input and response contain no blank.
   */
  lemma BlankQueryFilters(visible: seq<Chat>)
    requires forall i :: 0 <= i < |visible| ==> ' ' !in visible[i].userInput && ' ' !in visible[i].aiResponse
    ensures SearchFilter(visible, " ") == []
  {
    assert Lower(" ") == " ";
    forall i | 0 <= i < |visible| ensures !MatchesQuery(" ")(visible[i]) {
      BlankNotInLower(visible[i].userInput);
      BlankNotInLower(visible[i].aiResponse);
    }
    FilterKeepsNone(visible, MatchesQuery(" "));
  }

  /** Lower-casing creates no blank, so text without one still does not contain the query " ". */
  lemma BlankNotInLower(s: string)
    requires ' ' !in s
    ensures !Contains(Lower(s), " ")
  {
    ContainsChar(Lower(s), ' ');
  }

  /** The emoji picker offers only single characters that are not whitespace, or nothing. */
  lemma EmojiChoiceShape(emoji: string)
    requires emoji in EmojiChoices
    ensures emoji == "" || (|emoji| == 1 && !IsSpace(emoji[0]))
  {
  }

  /** Stripping a stripped text joined to a one-character emoji by a space. */
  lemma StripWithEmoji(text: string, emoji: string)
    requires IsStripped(text)
    requires |emoji| == 1 && !IsSpace(emoji[0])
    ensures Strip(text + " " + emoji) == if text == "" then emoji else text + " " + emoji
  {
    if text == "" {
      assert text + " " + emoji == " " + emoji + "";
      StripBetweenSpace(" ", emoji, "");
    } else {
      var core := text + " " + emoji;
      assert core[0] == text[0] && core[|core| - 1] == emoji[0];
      assert core == [] + core + [];
      StripBetweenSpace([], core, []);
    }
  }

  /**
   * The composed text: the stripped message when no emoji is picked;
   * otherwise the emoji alone after a blank message, or the stripped message,
   * a space and the emoji. Whenever the send guard passes, it is not empty.
   */
  lemma ComposeTextSpec(message: string, emoji: string)
    requires emoji in EmojiChoices
    ensures emoji == "" ==> ComposeText(message, emoji) == Strip(message)
    ensures emoji != "" ==>
      ComposeText(message, emoji) == (if Strip(message) == "" then emoji else Strip(message) + " " + emoji)
    ensures SendGuard(Send(message, emoji)) ==> ComposeText(message, emoji) != ""
  {
    EmojiChoiceShape(emoji);
    var text := Strip(message);
    StripSpec(message);
    if emoji != "" {
      StripWithEmoji(text, emoji);
      assert ComposeText(message, emoji) == Strip(text + " " + emoji);
    }
  }

  /** Concatenated history splits at any point of the context. */
  lemma {:induction false} HistoryAppend(a: seq<Chat>, b: seq<Chat>)
    ensures History(a + b) == History(a) + History(b)
  {
    if a == [] {
      assert a + b == b;
    } else {
      assert (a + b)[1..] == a[1..] + b;
      HistoryAppend(a[1..], b);
    }
  }

  /** The turn just saved is the last exchange in the history of the next prompt. */
  lemma SavedTurnEndsNextHistory(visible: seq<Chat>, c: Chat)
    ensures var h := History(Context(visible + [c]));
      |Turn(c)| <= |h| && h[|h| - |Turn(c)|..] == Turn(c)
  {
    var ctx := Context(visible + [c]);
    var older := ctx[..|ctx| - 1];
    assert ctx == older + [c];
    HistoryAppend(older, [c]);
    assert History([c]) == Turn(c) by {
      assert [c][1..] == [];
    }
  }

  /** The prompt for a window ending in five or more turns ignores everything before those turns. */
  lemma PromptIgnoresOlderTurns(older: seq<Chat>, recent: seq<Chat>, text: string)
    requires |recent| >= ContextTurns
    ensures Prompt(older + recent, text) == Prompt(recent, text)
  {
    var all := older + recent;
    assert all[|all| - ContextTurns..] == recent[|recent| - ContextTurns..];
    if |recent| == ContextTurns {
      assert recent[0..] == recent;
    }
  }

  /**
   * A run that does not log out leaves the cursor within the user's log, so
   * the clamp of the next run changes it only after a deletion made elsewhere.
   */
  lemma CursorWithinLogAfterRun(chats: seq<Chat>, email: Email, action: Action, start: nat, nextChatId: nat,
                                complete: string -> string, now: Time)
    requires start <= |UserChats(chats, email)|
    requires action != Logout
    ensures var all := UserChats(chats, email);
      CursorAfter(action, start, |all|) <=
        |UserChats(ChatsAfterRun(chats, email, action, VisibleWindow(all, start), nextChatId, complete, now), email)|
  {
    var all := UserChats(chats, email);
    var visible := VisibleWindow(all, start);
    var after := ChatsAfterRun(chats, email, action, visible, nextChatId, complete, now);
    assert CursorAfter(action, start, |all|) <= |all|;
    if action == ClearHistory {
      assert CursorAfter(action, start, |all|) == 0;
    } else if SendGuard(action) {
      var text := ComposeText(action.message, action.emoji);
      var c := Chat(nextChatId, email, text, complete(Prompt(visible, text)), None, now);
      assert after == chats + [c];
      UserChatsAfterSave(chats, c, email);
      assert |UserChats(after, email)| == |all| + 1;
    } else {
      assert after == chats;
    }
  }

  /**
   * Worked example: two stored turns, "New Chat", one more turn; the window
   * then shows only the new turn, and the prompt for the next message carries
   * only that turn: "User: how are you?\nAI: fine thanks\n\nUser: ok\nAI:"
   * for the message "ok".
   */
  lemma NewChatScenario(e: Email, text: string)
    ensures var before := [Chat(1, e, "hi", "hello", None, 0), Chat(2, e, "bye", "goodbye", None, 0)];
      var start := CursorAfter(NewChat, 0, |UserChats(before, e)|);
      var next := Chat(3, e, "how are you?", "fine thanks", None, 1);
      var all := UserChats(before + [next], e);
      VisibleWindow(UserChats(before, e), start) == [] &&
      VisibleWindow(all, ClampCursor(start, |all|)) == [next] &&
      Prompt(VisibleWindow(all, ClampCursor(start, |all|)), text) ==
        "User: " + "how are you?" + "\nAI: " + "fine thanks" + "\n\n" + "User: " + text + "\nAI:"
  {
    var before := [Chat(1, e, "hi", "hello", None, 0), Chat(2, e, "bye", "goodbye", None, 0)];
    var next := Chat(3, e, "how are you?", "fine thanks", None, 1);
    FilterKeepsAll(before, OwnedBy(e));
    FilterKeepsAll([next], OwnedBy(e));
    NewChatShowsOnlyLaterTurns(before, [next], e);
    var start := CursorAfter(NewChat, 0, |UserChats(before, e)|);
    var all := UserChats(before + [next], e);
    var window := VisibleWindow(all, ClampCursor(start, |all|));
    assert window == [next];
    assert Context(window) == [next];
    assert History([next]) == Turn(next) by {
      assert [next][1..] == [];
    }
  }

  // ---------------- Session ----------------

  /** What one run of the panel shows. */
  datatype Page =
    | LoginRequired
    | AccountMissing
    | LoggedOut
    | UserPanel(displayed: seq<Chat>)

  /** The per-browser-session state: the logged-in address and the chat cursor. */
  class Session {
    var user: Option<Email>
    var chatStartIndex: nat

    /** The session defaults: nobody logged in, cursor at the start of the log. */
    constructor ()
      ensures user == None && chatStartIndex == 0
    {
      user := None;
      chatStartIndex := 0;
    }

    /** The clamp at the top of every run. */
    method ClampTo(total: nat)
      modifies this`chatStartIndex
      ensures chatStartIndex == ClampCursor(old(chatStartIndex), total)
      ensures chatStartIndex <= total
    {
      if chatStartIndex > total {
        chatStartIndex := 0;
      }
    }

    /** "New Chat": hide every stored turn without deleting it. */
    method StartNewChat(total: nat)
      modifies this`chatStartIndex
      ensures chatStartIndex == total
    {
      chatStartIndex := total;
    }

    /** "Show Previous Chat": show the whole log again. */
    method ShowPreviousChat()
      modifies this`chatStartIndex
      ensures chatStartIndex == 0
    {
      chatStartIndex := 0;
    }

    /**
     * "Clear Chat History": delete the user's stored turns and reset the
     * cursor. The clock `now` stays ahead of every stamp that is left.
     */
    method ClearChatHistory(db: Database, email: Email, ghost now: Time)
      requires db.Valid() && db.ClockNotBehind(now)
      modifies this`chatStartIndex, db`chats
      ensures db.Valid() && db.ClockNotBehind(now)
      ensures db.chats == WithoutUserChats(old(db.chats), email)
      ensures chatStartIndex == 0
    {
      FilterMembers(db.chats, NotOwnedBy(email));
      db.DeleteUserChats(email);
      chatStartIndex := 0;
      forall i | 0 <= i < |db.chats| ensures db.chats[i].timestamp <= now {
        assert db.chats[i] in old(db.chats);
      }
    }

    /** "Logout": forget the user and reset the cursor. */
    method LogOut()
      modifies this
      ensures user == None && chatStartIndex == 0
    {
      user := None;
      chatStartIndex := 0;
    }

    /** The top of a run: read the user's log, clamp the cursor to it and take the visible window. */
    method ReadWindow(db: Database, email: Email) returns (total: nat, visible: seq<Chat>)
      requires db.Valid()
      modifies this`chatStartIndex
      ensures total == |UserChats(db.chats, email)|
      ensures chatStartIndex == ClampCursor(old(chatStartIndex), |UserChats(db.chats, email)|)
      ensures visible == VisibleWindow(UserChats(db.chats, email), chatStartIndex)
    {
      var all := db.GetUserChats(email);
      total := |all|;
      ClampTo(total);
      visible := VisibleWindow(all, chatStartIndex);
    }

    /**
     * The bottom of a run: store a held upload whose text was extracted, and
     * when the send guard passes, compose the text, prompt the model with the
     * visible window and store the exchange as one turn.
     */
    method StoreInputs(db: Database, email: Email, action: Action, visible: seq<Chat>, upload: Option<FileUpload>,
                       complete: string -> string, now: Time)
      requires db.Valid() && db.ClockNotBehind(now)
      modifies db`chats, db`nextChatId, db`files, db`nextFileId
      ensures db.Valid() && db.ClockNotBehind(now)
      ensures db.files == FilesAfterRun(old(db.files), email, upload, old(db.nextFileId), now)
      ensures db.chats == SendTurn(old(db.chats), email, action, visible, old(db.nextChatId), complete, now)
      ensures db.nextFileId == old(db.nextFileId) + (if HoldsExtractedFile(upload) then 1 else 0)
      ensures db.nextChatId == old(db.nextChatId) + (if SendGuard(action) then 1 else 0)
    {
      if HoldsExtractedFile(upload) {
        db.SaveUploadedFile(email, upload.value.fileName, upload.value.fileType, upload.value.extracted.value, now);
      }
      if SendGuard(action) {
        var text := ComposeText(action.message, action.emoji);
        var prompt := Prompt(visible, text);
        var reply := complete(prompt);
        db.SaveChat(email, text, reply, None, now);
      }
    }

    /** The sidebar: apply the button the user pressed, if any, to the clamped cursor `chatStartIndex`. */
    method ApplyAction(db: Database, email: Email, action: Action, total: nat, ghost now: Time)
      requires db.Valid() && db.ClockNotBehind(now)
      modifies this, db`chats
      ensures db.Valid() && db.ClockNotBehind(now)
      ensures chatStartIndex == CursorAfter(action, old(chatStartIndex), total)
      ensures user == if action == Logout then None else old(user)
      ensures db.chats == if action == ClearHistory then WithoutUserChats(old(db.chats), email) else old(db.chats)
    {
      match action {
        case NewChat => StartNewChat(total);
        case ShowPrevious => ShowPreviousChat();
        case ClearHistory => ClearChatHistory(db, email, now);
        case Logout => LogOut();
        case _ =>
      }
    }

    /**
     * One run of the panel, at clock reading `now`, which is no earlier than
     * any stored stamp. Without a logged-in user it stops; a logged-in
     * address with no account row stops with an error before anything
     * changes; otherwise the run has the effect `RunPanel` states.
     */
    method Rerun(db: Database, action: Action, searchQuery: string, upload: Option<FileUpload>,
                 complete: string -> string, now: Time) returns (page: Page)
      requires db.Valid() && db.ClockNotBehind(now)
      modifies this, db`chats, db`nextChatId, db`files, db`nextFileId
      ensures db.Valid() && db.ClockNotBehind(now)
      ensures old(user).None? ==>
        page == LoginRequired && user == old(user) && chatStartIndex == old(chatStartIndex) &&
        db.chats == old(db.chats) && db.files == old(db.files) &&
        db.nextChatId == old(db.nextChatId) && db.nextFileId == old(db.nextFileId)
      ensures old(user).Some? && old(user).value !in db.users ==>
        page == AccountMissing && user == old(user) && chatStartIndex == old(chatStartIndex) &&
        db.chats == old(db.chats) && db.files == old(db.files) &&
        db.nextChatId == old(db.nextChatId) && db.nextFileId == old(db.nextFileId)
      ensures old(user).Some? && old(user).value in db.users ==>
        var email := old(user).value;
        var all := UserChats(old(db.chats), email);
        var start := ClampCursor(old(chatStartIndex), |all|);
        var visible := VisibleWindow(all, start);
        chatStartIndex == CursorAfter(action, start, |all|) &&
        user == (if action == Logout then None else old(user)) &&
        page == (if action == Logout then LoggedOut else UserPanel(SearchFilter(visible, searchQuery))) &&
        db.files == (if action == Logout then old(db.files)
                     else FilesAfterRun(old(db.files), email, upload, old(db.nextFileId), now)) &&
        db.chats == (if action == Logout then old(db.chats)
                     else ChatsAfterRun(old(db.chats), email, action, visible, old(db.nextChatId), complete, now)) &&
        db.nextFileId == old(db.nextFileId) + (if action != Logout && HoldsExtractedFile(upload) then 1 else 0) &&
        db.nextChatId == old(db.nextChatId) + (if SendGuard(action) then 1 else 0)
    {
      if user.None? {
        return LoginRequired;
      }
      var email := user.value;
      if db.GetUser(email).None? {
        return AccountMissing;
      }
      page := RunPanel(db, email, action, searchQuery, upload, complete, now);
    }

    /** The body of a run for the logged-in `email`, from reading the log to storing the sent turn. */
    method RunPanel(db: Database, email: Email, action: Action, searchQuery: string, upload: Option<FileUpload>,
                    complete: string -> string, now: Time) returns (page: Page)
      requires db.Valid() && db.ClockNotBehind(now)
      modifies this, db`chats, db`nextChatId, db`files, db`nextFileId
      ensures db.Valid() && db.ClockNotBehind(now)
      ensures
        var all := UserChats(old(db.chats), email);
        var start := ClampCursor(old(chatStartIndex), |all|);
        var visible := VisibleWindow(all, start);
        chatStartIndex == CursorAfter(action, start, |all|) &&
        user == (if action == Logout then None else old(user)) &&
        page == (if action == Logout then LoggedOut else UserPanel(SearchFilter(visible, searchQuery))) &&
        db.files == (if action == Logout then old(db.files)
                     else FilesAfterRun(old(db.files), email, upload, old(db.nextFileId), now)) &&
        db.chats == (if action == Logout then old(db.chats)
                     else ChatsAfterRun(old(db.chats), email, action, visible, old(db.nextChatId), complete, now)) &&
        db.nextFileId == old(db.nextFileId) + (if action != Logout && HoldsExtractedFile(upload) then 1 else 0) &&
        db.nextChatId == old(db.nextChatId) + (if SendGuard(action) then 1 else 0)
    {
      var total, visible := ReadWindow(db, email);
      ApplyAction(db, email, action, total, now);
      if action == Logout {
        return LoggedOut;
      }
      StoreInputs(db, email, action, visible, upload, complete, now);
      var displayed := SearchFilter(visible, searchQuery);
      page := UserPanel(displayed);
    }
  }
}
