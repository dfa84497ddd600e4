/**
 * `SessionManager`: the `user_sessions` table, which records which account
 * is logged in on which Telegram chat.
 */
module Sessions {
  import opened Tables

  class SessionManager {
    const db: Database

    constructor (db: Database)
      ensures this.db == db
    {
      this.db := db;
    }

    /** `SELECT COUNT(*) FROM user_sessions WHERE telegram_chat_id = ?`, then `> 0`. */
    method IsSessionActive(chatId: int) returns (r: Result<bool>)
      ensures r.Ok? ==> (r.value <==> HasSession(db.sessions, chatId))
    {
      var failed: bool :| true;
      if failed {
        return Err;
      }
      var selected := Where(db.sessions, (s: SessionRow) => s.chatId == chatId);
      if HasSession(db.sessions, chatId) {
        var i :| 0 <= i < |db.sessions| && db.sessions[i].chatId == chatId;
        assert db.sessions[i] in selected;
      }
      if |selected| > 0 {
        assert selected[0] in db.sessions;
      }
      return Ok(|selected| > 0);
    }

    /** `INSERT INTO user_sessions (user_id, telegram_chat_id) VALUES (?, ?)`. */
    method CreateSession(userId: int, chatId: int) returns (o: Outcome)
      modifies db
      ensures o.Success? ==> db.Tables() == old(db.Tables()).(sessions := old(db.sessions) + [SessionRow(userId, chatId)])
      ensures o.SqlFailure? ==> db.Tables() == old(db.Tables())
    {
      var failed: bool :| true;
      if failed {
        return SqlFailure;
      }
      db.sessions := db.sessions + [SessionRow(userId, chatId)];
      return Success;
    }

    /** `DELETE FROM user_sessions WHERE telegram_chat_id = ?`. */
    method LogoutUser(chatId: int) returns (o: Outcome)
      modifies db
      ensures o.Success? ==> db.Tables() == old(db.Tables()).(sessions := SessionsWithoutChat(old(db.sessions), chatId))
      ensures o.SqlFailure? ==> db.Tables() == old(db.Tables())
    {
      var failed: bool :| true;
      if failed {
        return SqlFailure;
      }
      db.sessions := SessionsWithoutChat(db.sessions, chatId);
      return Success;
    }
  }

  /** A created session is active on its chat, and every session that was active stays so. */
  lemma CreatedSessionIsActive(sessions: seq<SessionRow>, userId: int, chatId: int, other: int)
    ensures HasSession(sessions + [SessionRow(userId, chatId)], chatId)
    ensures HasSession(sessions, other) ==> HasSession(sessions + [SessionRow(userId, chatId)], other)
  {
    var s := sessions + [SessionRow(userId, chatId)];
    assert s[|sessions|].chatId == chatId;
    if HasSession(sessions, other) {
      var i :| 0 <= i < |sessions| && sessions[i].chatId == other;
      assert s[i] == sessions[i];
    }
  }

  /**
   * Logging out ends every session of that chat and leaves the sessions of
   * other chats exactly as they were.
   */
  lemma LogoutEndsOnlyThatChat(sessions: seq<SessionRow>, chatId: int, other: int)
    requires other != chatId
    ensures !HasSession(SessionsWithoutChat(sessions, chatId), chatId)
    ensures HasSession(SessionsWithoutChat(sessions, chatId), other) <==> HasSession(sessions, other)
    ensures forall row: SessionRow :: row.chatId != chatId ==>
              multiset(SessionsWithoutChat(sessions, chatId))[row] == multiset(sessions)[row]
  {
    var r := SessionsWithoutChat(sessions, chatId);
    forall i | 0 <= i < |r|
      ensures r[i].chatId != chatId
    {
      assert r[i] in r;
    }
    if HasSession(sessions, other) {
      var i :| 0 <= i < |sessions| && sessions[i].chatId == other;
      assert sessions[i] in r;
    }
    if HasSession(r, other) {
      var i :| 0 <= i < |r| && r[i].chatId == other;
      assert r[i] in sessions;
    }
  }
}
