/**
 * The four SQLite tables of the application (`users`, `chats`,
 * `uploaded_files`, `email_logs`) as an in-memory database, and every
 * statement the application runs against them as a state transition.
 *
 * Times are whole seconds on the server clock and are passed in as `now`.
 * Passwords are stored as SHA-256 hex digests; the digest is a parameter
 * `hash`, about which nothing is assumed.
 */
module Db {
  import opened Wrappers
  import opened Sequences

  type Email = string

  /** Seconds on the server clock. */
  type Time = int

  /** How long a verification token issued by `create_user` stays valid: one hour. */
  const VerificationLifetime: int := 3600

  /** The role column's default for new accounts. */
  const DefaultRole: string := "user"

  /** One row of `users`, keyed by e-mail address. NULL columns are `None`. */
  datatype User = User(
    password: string,
    name: string,
    profession: string,
    verified: bool,
    verificationToken: Option<string>,
    verificationTokenExpiry: Option<Time>,
    resetToken: Option<string>,
    resetTokenExpiry: Option<Time>,
    blocked: bool,
    role: string)

  /** One row of `chats`: a single exchange between a user and the model. */
  datatype Chat = Chat(
    id: nat,
    userEmail: Email,
    userInput: string,
    aiResponse: string,
    threadId: Option<string>,
    timestamp: Time)

  /** One row of `uploaded_files`. */
  datatype UploadedFile = UploadedFile(
    id: nat,
    userEmail: Email,
    fileName: string,
    fileType: string,
    extractedText: string,
    timestamp: Time)

  /** One row of `email_logs`. */
  datatype EmailLog = EmailLog(
    id: nat,
    recipient: string,
    subject: string,
    status: string,
    error: Option<string>,
    timestamp: Time)

  /** A token column is never set without its expiry, and a verified account holds no verification token. */
  predicate WellFormedUser(u: User)
  {
    (u.verificationToken.Some? ==> u.verificationTokenExpiry.Some?) &&
    (u.resetToken.Some? ==> u.resetTokenExpiry.Some?) &&
    (u.verified ==> u.verificationToken.None?)
  }

  predicate WellFormedUsers(users: map<Email, User>)
  {
    forall e :: e in users ==> WellFormedUser(users[e])
  }

  /**
   * The row `create_user` inserts: unverified, unblocked, with the default
   * role, holding the given token, which expires one hour from `now`.
   */
  function NewUser(passwordHash: string, name: string, profession: string,
                   verificationToken: Option<string>, now: Time): (u: User)
    ensures WellFormedUser(u)
    ensures !u.verified && !u.blocked && u.role == DefaultRole && u.password == passwordHash
    ensures u.verificationToken == verificationToken && u.verificationTokenExpiry == Some(now + VerificationLifetime)
    ensures u.resetToken.None? && u.resetTokenExpiry.None?
  {
    User(passwordHash, name, profession, false, verificationToken, Some(now + VerificationLifetime),
         None, None, false, DefaultRole)
  }

  /** The accounts whose row `WHERE verification_token = ?` selects. */
  function VerificationHolders(users: map<Email, User>, token: string): set<Email>
  {
    set e | e in users && users[e].verificationToken == Some(token)
  }

  /** The accounts whose row `WHERE reset_token = ?` selects. */
  function ResetHolders(users: map<Email, User>, token: string): set<Email>
  {
    set e | e in users && users[e].resetToken == Some(token)
  }

  /** No two accounts hold the same verification token. */
  predicate UniqueVerificationTokens(users: map<Email, User>)
  {
    forall e1, e2 ::
      (e1 in users && e2 in users && users[e1].verificationToken.Some? &&
       users[e1].verificationToken == users[e2].verificationToken) ==> e1 == e2
  }

  /** No two accounts hold the same reset token. */
  predicate UniqueResetTokens(users: map<Email, User>)
  {
    forall e1, e2 ::
      (e1 in users && e2 in users && users[e1].resetToken.Some? &&
       users[e1].resetToken == users[e2].resetToken) ==> e1 == e2
  }

  /**
   * What `verify_user_token` returns, and the table it leaves, once its
   * `fetchone()` has produced the row of `e`: an expired token is refused,
   * an already verified account is accepted as it is, and otherwise the
   * account becomes verified and its token and expiry are cleared.
   */
  function VerifyHolder(users: map<Email, User>, e: Email, now: Time): (r: (bool, map<Email, User>))
    requires e in users && users[e].verificationTokenExpiry.Some?
    ensures r.0 <==> now <= users[e].verificationTokenExpiry.value
    ensures r.1.Keys == users.Keys
    ensures forall e' :: e' in users && e' != e ==> r.1[e'] == users[e']
    ensures r.1[e].verified == (r.0 || users[e].verified)
    ensures r.0 && !users[e].verified ==>
      r.1[e] == users[e].(verified := true, verificationToken := None, verificationTokenExpiry := None)
    ensures !(r.0 && !users[e].verified) ==> r.1 == users
  {
    var u := users[e];
    if now > u.verificationTokenExpiry.value then (false, users)
    else if u.verified then (true, users)
    else (true, users[e := u.(verified := true, verificationToken := None, verificationTokenExpiry := None)])
  }

  /**
   * What `reset_user_password_by_token` returns, and the table it leaves,
   * once its `fetchone()` has produced the row of `e`: an expired token is
   * refused; otherwise the password is replaced and the token cleared.
   */
  function ResetHolder(users: map<Email, User>, e: Email, newPasswordHash: string, now: Time): (r: (bool, map<Email, User>))
    requires e in users && users[e].resetTokenExpiry.Some?
    ensures r.0 <==> now <= users[e].resetTokenExpiry.value
    ensures r.1.Keys == users.Keys
    ensures forall e' :: e' in users && e' != e ==> r.1[e'] == users[e']
    ensures r.0 ==> r.1[e] == users[e].(password := newPasswordHash, resetToken := None, resetTokenExpiry := None)
    ensures !r.0 ==> r.1 == users
  {
    var u := users[e];
    if now > u.resetTokenExpiry.value then (false, users)
    else (true, users[e := u.(password := newPasswordHash, resetToken := None, resetTokenExpiry := None)])
  }

  /** `WHERE user_email = ?` on `chats`. */
  function OwnedBy(e: Email): Chat -> bool
  {
    (c: Chat) => c.userEmail == e
  }

  /** `WHERE user_email <> ?` on `chats`: the rows a per-user DELETE leaves. */
  function NotOwnedBy(e: Email): Chat -> bool
  {
    (c: Chat) => c.userEmail != e
  }

  /** `WHERE user_email = ?` on `uploaded_files`. */
  function FileOwnedBy(e: Email): UploadedFile -> bool
  {
    (f: UploadedFile) => f.userEmail == e
  }

  /** The chats of `e`, in table order. */
  function UserChats(chats: seq<Chat>, e: Email): seq<Chat>
  {
    Filter(chats, OwnedBy(e))
  }

  /** `chats` after `DELETE FROM chats WHERE user_email = e`. */
  function WithoutUserChats(chats: seq<Chat>, e: Email): seq<Chat>
  {
    Filter(chats, NotOwnedBy(e))
  }

  predicate ChatIdBefore(a: Chat, b: Chat) { a.id < b.id }
  predicate FileIdBefore(a: UploadedFile, b: UploadedFile) { a.id < b.id }
  predicate LogIdBefore(a: EmailLog, b: EmailLog) { a.id < b.id }
  predicate ChatNotLater(a: Chat, b: Chat) { a.timestamp <= b.timestamp }
  predicate FileNotLater(a: UploadedFile, b: UploadedFile) { a.timestamp <= b.timestamp }
  predicate LogNotLater(a: EmailLog, b: EmailLog) { a.timestamp <= b.timestamp }

  /** The first `limit` elements, where a negative limit means all of them (SQLite's `LIMIT`). */
  function Limit<T>(s: seq<T>, limit: int): (r: seq<T>)
    ensures limit < 0 || |s| <= limit ==> r == s
    ensures 0 <= limit < |s| ==> r == s[..limit]
  {
    if limit < 0 || |s| <= limit then s else s[..limit]
  }

  class Database {
    var users: map<Email, User>
    var chats: seq<Chat>
    var files: seq<UploadedFile>
    var emailLogs: seq<EmailLog>
    /** The next `AUTOINCREMENT` key of each table with a row id. */
    var nextChatId: nat
    var nextFileId: nat
    var nextLogId: nat

    /**
     * Token columns are well formed; in every table, row ids increase in
     * table order and stay below the next key, and timestamps never decrease
     * in table order (rows are stamped by a clock that does not go back).
     */
    ghost predicate Valid()
      reads this
    {
      WellFormedUsers(users) &&
      Pairwise(chats, ChatIdBefore) && (forall i :: 0 <= i < |chats| ==> chats[i].id < nextChatId) &&
      Pairwise(files, FileIdBefore) && (forall i :: 0 <= i < |files| ==> files[i].id < nextFileId) &&
      Pairwise(emailLogs, LogIdBefore) && (forall i :: 0 <= i < |emailLogs| ==> emailLogs[i].id < nextLogId) &&
      Pairwise(chats, ChatNotLater) && Pairwise(files, FileNotLater) && Pairwise(emailLogs, LogNotLater)
    }

    /** The clock reads `now` or later than every stamp stored so far. */
    ghost predicate ClockNotBehind(now: Time)
      reads this
    {
      (forall i :: 0 <= i < |chats| ==> chats[i].timestamp <= now) &&
      (forall i :: 0 <= i < |files| ==> files[i].timestamp <= now) &&
      (forall i :: 0 <= i < |emailLogs| ==> emailLogs[i].timestamp <= now)
    }

    /** `create_tables` on an empty database file. */
    constructor ()
      ensures Valid()
      ensures users == map[] && chats == [] && files == [] && emailLogs == []
    {
      users, chats, files, emailLogs := map[], [], [], [];
      nextChatId, nextFileId, nextLogId := 1, 1, 1;
    }

    // ---------------- User functions ----------------

    /**
     * `create_user`: refuses an address that already has an account;
     * otherwise adds an unverified account whose verification token expires
     * one hour from `now`.
     */
    method CreateUser(email: Email, passwordHash: string, name: string, profession: string,
                      verificationToken: Option<string>, now: Time) returns (created: bool)
      requires Valid()
      modifies this`users
      ensures Valid()
      ensures created <==> email !in old(users)
      ensures created ==> users == old(users)[email := NewUser(passwordHash, name, profession, verificationToken, now)]
      ensures !created ==> users == old(users)
      ensures CountRegisteredUsers() == old(CountRegisteredUsers()) + (if created then 1 else 0)
    {
      if email in users {
        return false;
      }
      CountAfterCreate(users, email, NewUser(passwordHash, name, profession, verificationToken, now));
      users := users[email := NewUser(passwordHash, name, profession, verificationToken, now)];
      created := true;
    }

    /** `get_user`. */
    function GetUser(email: Email): (r: Option<User>)
      reads this
      ensures r.Some? <==> email in users
      ensures r.Some? ==> r.value == users[email]
    {
      if email in users then Some(users[email]) else None
    }

    /** `is_user_verified`: the account exists and its `verified` flag is set. */
    function IsUserVerified(email: Email): (b: bool)
      reads this
      ensures b <==> GetUser(email).Some? && GetUser(email).value.verified
    {
      email in users && users[email].verified
    }

    /** `update_reset_token`: sets the reset token and its expiry of an existing account; no effect otherwise. */
    method UpdateResetToken(email: Email, token: string, expiry: Time)
      requires Valid()
      modifies this`users
      ensures Valid()
      ensures email in old(users) ==>
        users == old(users)[email := old(users)[email].(resetToken := Some(token), resetTokenExpiry := Some(expiry))]
      ensures email !in old(users) ==> users == old(users)
    {
      if email in users {
        users := users[email := users[email].(resetToken := Some(token), resetTokenExpiry := Some(expiry))];
      }
    }

    /**
     * `reset_user_password_by_token`: when no account holds `token` it
     * returns false and changes nothing; otherwise it acts on the one row
     * `fetchone()` returns (any holder, should several share the token).
     */
    method ResetUserPasswordByToken(token: string, newPasswordHash: string, now: Time) returns (ok: bool)
      requires Valid()
      modifies this`users
      ensures Valid()
      ensures ResetHolders(old(users), token) == {} ==> !ok && users == old(users)
      ensures ResetHolders(old(users), token) != {} ==>
        exists e :: e in ResetHolders(old(users), token) && (ok, users) == ResetHolder(old(users), e, newPasswordHash, now)
    {
      var holders := ResetHolders(users, token);
      if holders == {} {
        return false;
      }
      var e :| e in holders;
      var r := ResetHolder(users, e, newPasswordHash, now);
      ok, users := r.0, r.1;
    }

    /** `verify_user_credentials`: some account has this address and the digest of `password`. */
    function VerifyUserCredentials(email: Email, password: string, hash: string -> string): (b: bool)
      reads this
      ensures b <==> GetUser(email).Some? && GetUser(email).value.password == hash(password)
    {
      email in users && users[email].password == hash(password)
    }

    /**
     * `verify_user_token`: when no account holds `token` it returns false and
     * changes nothing; otherwise it acts on the one row `fetchone()` returns.
     */
    method VerifyUserToken(token: string, now: Time) returns (ok: bool)
      requires Valid()
      modifies this`users
      ensures Valid()
      ensures VerificationHolders(old(users), token) == {} ==> !ok && users == old(users)
      ensures VerificationHolders(old(users), token) != {} ==>
        exists e :: e in VerificationHolders(old(users), token) && (ok, users) == VerifyHolder(old(users), e, now)
    {
      var holders := VerificationHolders(users, token);
      if holders == {} {
        return false;
      }
      var e :| e in holders;
      var r := VerifyHolder(users, e, now);
      ok, users := r.0, r.1;
    }

    // ---------------- Chat functions ----------------

    /** `save_chat`: appends one row, stamped `now`, under the next row id. */
    method SaveChat(userEmail: Email, userInput: string, aiResponse: string, threadId: Option<string>, now: Time)
      requires Valid() && ClockNotBehind(now)
      modifies this`chats, this`nextChatId
      ensures Valid() && ClockNotBehind(now)
      ensures chats == old(chats) + [Chat(old(nextChatId), userEmail, userInput, aiResponse, threadId, now)]
      ensures nextChatId == old(nextChatId) + 1
    {
      var c := Chat(nextChatId, userEmail, userInput, aiResponse, threadId, now);
      SaveChatKeepsChronological(chats, c);
      AppendKeepsPairwise(chats, c, ChatIdBefore);
      chats := chats + [c];
      nextChatId := nextChatId + 1;
    }

    /**
     * `get_user_chats`: exactly the rows of `userEmail`, in ascending
     * timestamp order (table order, see `UserChatsChronological`).
     */
    function GetUserChats(userEmail: Email): (r: seq<Chat>)
      requires Valid()
      reads this
      ensures forall c :: c in r <==> c in chats && c.userEmail == userEmail
      ensures Pairwise(r, ChatNotLater)
    {
      FilterMembers(chats, OwnedBy(userEmail));
      UserChatsChronological(chats, userEmail);
      UserChats(chats, userEmail)
    }

    /** `delete_user_chats`: removes every row of `userEmail` and no other. */
    method DeleteUserChats(userEmail: Email)
      requires Valid()
      modifies this`chats
      ensures Valid()
      ensures chats == WithoutUserChats(old(chats), userEmail)
    {
      FilterIsSubsequence(chats, NotOwnedBy(userEmail));
      SubsequencePairwise(Filter(chats, NotOwnedBy(userEmail)), chats, ChatIdBefore);
      SubsequencePairwise(Filter(chats, NotOwnedBy(userEmail)), chats, ChatNotLater);
      FilterMembers(chats, NotOwnedBy(userEmail));
      ghost var old_chats := chats;
      chats := WithoutUserChats(chats, userEmail);
      forall i | 0 <= i < |chats| ensures chats[i].id < nextChatId {
        assert chats[i] in old_chats;
      }
    }

    // ---------------- File functions ----------------

    /** `save_uploaded_file`: appends one row, stamped `now`. */
    method SaveUploadedFile(userEmail: Email, fileName: string, fileType: string, extractedText: string, now: Time)
      requires Valid() && ClockNotBehind(now)
      modifies this`files, this`nextFileId
      ensures Valid() && ClockNotBehind(now)
      ensures files == old(files) + [UploadedFile(old(nextFileId), userEmail, fileName, fileType, extractedText, now)]
      ensures nextFileId == old(nextFileId) + 1
    {
      var f := UploadedFile(nextFileId, userEmail, fileName, fileType, extractedText, now);
      AppendKeepsPairwise(files, f, FileNotLater);
      AppendKeepsPairwise(files, f, FileIdBefore);
      files := files + [f];
      nextFileId := nextFileId + 1;
    }

    /** `get_uploaded_files`: the files of `userEmail`, newest first. */
    function GetUploadedFiles(userEmail: Email): (r: seq<UploadedFile>)
      reads this
      ensures |r| == |Filter(files, FileOwnedBy(userEmail))|
      ensures forall f :: f in r <==> f in files && f.userEmail == userEmail
      ensures forall i :: 0 <= i < |r| ==> r[i] == Filter(files, FileOwnedBy(userEmail))[|r| - 1 - i]
    {
      var kept := Filter(files, FileOwnedBy(userEmail));
      FilterMembers(files, FileOwnedBy(userEmail));
      ReverseMembers(kept);
      Reverse(kept)
    }

    // ---------------- Email logs ----------------

    /** `log_email_status`: appends one row, stamped `now`. */
    method LogEmailStatus(recipient: string, subject: string, status: string, error: Option<string>, now: Time)
      requires Valid() && ClockNotBehind(now)
      modifies this`emailLogs, this`nextLogId
      ensures Valid() && ClockNotBehind(now)
      ensures emailLogs == old(emailLogs) + [EmailLog(old(nextLogId), recipient, subject, status, error, now)]
      ensures nextLogId == old(nextLogId) + 1
    {
      var l := EmailLog(nextLogId, recipient, subject, status, error, now);
      AppendKeepsPairwise(emailLogs, l, LogNotLater);
      AppendKeepsPairwise(emailLogs, l, LogIdBefore);
      emailLogs := emailLogs + [l];
      nextLogId := nextLogId + 1;
    }

    /** `get_email_logs`: the newest `limit` log rows, newest first (all of them when `limit` is negative). */
    function GetEmailLogs(limit: int): (r: seq<EmailLog>)
      reads this
      ensures |r| == if limit < 0 || |emailLogs| <= limit then |emailLogs| else limit
      ensures forall i :: 0 <= i < |r| ==> r[i] == emailLogs[|emailLogs| - 1 - i]
    {
      Limit(Reverse(emailLogs), limit)
    }

    // ---------------- Admin helpers ----------------

    /** `block_user`: sets or clears the `blocked` flag of an existing account; no effect otherwise. */
    method BlockUser(email: Email, block: bool)
      requires Valid()
      modifies this`users
      ensures Valid()
      ensures email in old(users) ==> users == old(users)[email := old(users)[email].(blocked := block)]
      ensures email !in old(users) ==> users == old(users)
    {
      if email in users {
        users := users[email := users[email].(blocked := block)];
      }
    }

    /** `count_registered_users`: the number of accounts. */
    function CountRegisteredUsers(): (n: nat)
      reads this
      ensures n == |users.Keys|
    {
      |users|
    }
  }

  // ---------------- Properties of the transitions ----------------

  /**
   * A verification token works once: when it is accepted for an account that
   * was not yet verified, that account is verified and stops holding the
   * token, and every other holder keeps it.
   */
  lemma VerificationTokenConsumed(users: map<Email, User>, token: string, e: Email, now: Time)
    requires WellFormedUsers(users)
    requires e in VerificationHolders(users, token)
    requires VerifyHolder(users, e, now).0
    ensures e in VerifyHolder(users, e, now).1 && VerifyHolder(users, e, now).1[e].verified
    ensures VerificationHolders(VerifyHolder(users, e, now).1, token) == VerificationHolders(users, token) - {e}
  {
    assert !users[e].verified;
  }

  /** With unique tokens, a second use of an accepted verification token finds no account. */
  lemma VerificationReplayRefused(users: map<Email, User>, token: string, e: Email, now: Time)
    requires WellFormedUsers(users) && UniqueVerificationTokens(users)
    requires e in VerificationHolders(users, token)
    requires VerifyHolder(users, e, now).0
    ensures VerificationHolders(VerifyHolder(users, e, now).1, token) == {}
  {
    VerificationTokenConsumed(users, token, e, now);
    forall e' | e' in VerificationHolders(users, token) ensures e' == e {
    }
  }

  /**
   * A reset token works once: when it is accepted, the account's password is
   * replaced and the account stops holding the token; every other holder keeps it.
   */
  lemma ResetTokenConsumed(users: map<Email, User>, token: string, e: Email, newPasswordHash: string, now: Time)
    requires WellFormedUsers(users)
    requires e in ResetHolders(users, token)
    requires ResetHolder(users, e, newPasswordHash, now).0
    ensures e in ResetHolder(users, e, newPasswordHash, now).1
    ensures ResetHolder(users, e, newPasswordHash, now).1[e].password == newPasswordHash
    ensures ResetHolders(ResetHolder(users, e, newPasswordHash, now).1, token) == ResetHolders(users, token) - {e}
  {
  }

  /** With unique tokens, a second use of an accepted reset token finds no account. */
  lemma ResetReplayRefused(users: map<Email, User>, token: string, e: Email, newPasswordHash: string, now: Time)
    requires WellFormedUsers(users) && UniqueResetTokens(users)
    requires e in ResetHolders(users, token)
    requires ResetHolder(users, e, newPasswordHash, now).0
    ensures ResetHolders(ResetHolder(users, e, newPasswordHash, now).1, token) == {}
  {
    ResetTokenConsumed(users, token, e, newPasswordHash, now);
    forall e' | e' in ResetHolders(users, token) ensures e' == e {
    }
  }

  /**
   * The reset flow end to end: after `update_reset_token` gives `email` a
   * token no other account holds, using it no later than its expiry selects
   * that account, succeeds, and leaves it with the new password and no token.
   */
  lemma ResetAfterUpdate(users: map<Email, User>, email: Email, token: string, expiry: Time,
                         newPasswordHash: string, now: Time)
    requires email in users
    requires ResetHolders(users, token) <= {email}
    requires now <= expiry
    ensures var users' := users[email := users[email].(resetToken := Some(token), resetTokenExpiry := Some(expiry))];
      ResetHolders(users', token) == {email} &&
      ResetHolder(users', email, newPasswordHash, now) ==
        (true, users[email := users[email].(password := newPasswordHash, resetToken := None, resetTokenExpiry := None)])
  {
    var users' := users[email := users[email].(resetToken := Some(token), resetTokenExpiry := Some(expiry))];
    var reset := users[email].(password := newPasswordHash, resetToken := None, resetTokenExpiry := None);
    assert users'[email].(password := newPasswordHash, resetToken := None, resetTokenExpiry := None) == reset;
    assert users'[email := reset] == users[email := reset];
    forall e | e in users' && e != email ensures users'[e].resetToken != Some(token) {
      assert users'[e] == users[e];
      assert e !in ResetHolders(users, token);
    }
  }

  /**
   * Creating an account for a new address raises the registered count by
   * one: what `CreateUser` promises about `CountRegisteredUsers`.
   */
  lemma CountAfterCreate(users: map<Email, User>, email: Email, u: User)
    requires email !in users
    ensures |users[email := u].Keys| == |users.Keys| + 1
  {
    assert users[email := u].Keys == users.Keys + {email};
  }

  /**
   * A fresh account's verification token is accepted up to and including one
   * hour after creation, and not later. Times here are whole seconds: the
   * application compares against a clock with microseconds, so it accepts
   * during the boundary second only at its first instant, where this model
   * accepts for the whole of that second.
   */
  lemma NewAccountVerificationWindow(users: map<Email, User>, email: Email, passwordHash: string, name: string,
                                     profession: string, token: string, created: Time, now: Time)
    requires email !in users
    ensures var users' := users[email := NewUser(passwordHash, name, profession, Some(token), created)];
      email in VerificationHolders(users', token) &&
      (VerifyHolder(users', email, now).0 <==> now <= created + VerificationLifetime)
  {
  }

  /** `get_user_chats` returns exactly the rows of that user, each as often as it is stored, in table order. */
  lemma UserChatsExact(chats: seq<Chat>, e: Email)
    ensures IsSubsequence(UserChats(chats, e), chats)
    ensures forall c :: multiset(UserChats(chats, e))[c] == if c.userEmail == e then multiset(chats)[c] else 0
    ensures forall c :: c in UserChats(chats, e) <==> c in chats && c.userEmail == e
  {
    FilterIsSubsequence(chats, OwnedBy(e));
    FilterMultiset(chats, OwnedBy(e));
    FilterMembers(chats, OwnedBy(e));
  }

  /** After `save_chat`, the owner's listing gains the new row at its end and every other listing is unchanged. */
  lemma UserChatsAfterSave(chats: seq<Chat>, c: Chat, e: Email)
    ensures UserChats(chats + [c], e) == UserChats(chats, e) + (if c.userEmail == e then [c] else [])
  {
    FilterAppend(chats, [c], OwnedBy(e));
    assert Filter([c], OwnedBy(e)) == (if c.userEmail == e then [c] else []) by {
      assert [c][1..] == [];
    }
  }

  /** Rows appended later extend each listing by those of the appended rows that belong to it. */
  lemma UserChatsAfterAppend(chats: seq<Chat>, later: seq<Chat>, e: Email)
    ensures UserChats(chats + later, e) == UserChats(chats, e) + UserChats(later, e)
  {
    FilterAppend(chats, later, OwnedBy(e));
  }

  /** `delete_user_chats(e)` leaves `e` with no rows and every other user's listing as it was. */
  lemma {:induction false} DeleteUserChatsSpec(chats: seq<Chat>, e: Email, other: Email)
    ensures UserChats(WithoutUserChats(chats, e), e) == []
    ensures other != e ==> UserChats(WithoutUserChats(chats, e), other) == UserChats(chats, other)
  {
    if chats != [] {
      DeleteUserChatsSpec(chats[1..], e, other);
    }
  }

  /** Deleting a user's chats twice is deleting them once. */
  lemma DeleteUserChatsIdempotent(chats: seq<Chat>, e: Email)
    ensures WithoutUserChats(WithoutUserChats(chats, e), e) == WithoutUserChats(chats, e)
  {
    var rest := WithoutUserChats(chats, e);
    FilterKeepsAll(rest, NotOwnedBy(e));
  }

  /**
   * Table order is one of the orders `ORDER BY timestamp ASC` may return:
   * when the rows were stamped by a clock that never goes back, every
   * listing is in ascending timestamp order.
   */
  lemma UserChatsChronological(chats: seq<Chat>, e: Email)
    requires Pairwise(chats, ChatNotLater)
    ensures Pairwise(UserChats(chats, e), ChatNotLater)
  {
    FilterIsSubsequence(chats, OwnedBy(e));
    SubsequencePairwise(UserChats(chats, e), chats, ChatNotLater);
  }

  /** Appending a row stamped no earlier than every stored row keeps the table chronological. */
  lemma SaveChatKeepsChronological(chats: seq<Chat>, c: Chat)
    requires Pairwise(chats, ChatNotLater)
    requires forall i :: 0 <= i < |chats| ==> chats[i].timestamp <= c.timestamp
    ensures Pairwise(chats + [c], ChatNotLater)
  {
    AppendKeepsPairwise(chats, c, ChatNotLater);
  }
}
