/** Client code in the manner of test_session_store.py: each method replays
    one of its tests against the contracts of `SimpleSessionStore` alone. */
module Scenarios {
  import opened Text
  import opened Records
  import opened Listing
  import opened SessionStore

  /** test_create_session: the record carries the caller's user id and
      metadata. */
  method CreateThenGet() {
    var store := new SimpleSessionStore(map[]);
    assert store.storageDir == "sessions";
    var id := store.CreateSession("s-1", Some("test_user"), Some(map["topic" := JString("test")]), 100);
    var got := store.GetSession(id);
    assert got.Some?;
    assert got.value.userId == Some("test_user");
    assert got.value.metadata["topic"] == JString("test");
    assert got.value.messageCount == 0 && got.value.messages == [];
  }

  /** test_multiple_messages, for any two normalised roles and non-blank
      trimmed contents ("user"/"Hello" and "assistant"/"Hi there!" in the
      test): the messages come back in order, numbered from one, with the
      roles and contents given. */
  method MessagesInOrder(role1: string, content1: string, role2: string, content2: string)
    requires NormalizeRole(role1) == role1 && NormalizeRole(role2) == role2
    requires Strip(content1) == content1 != [] && Strip(content2) == content2 != []
  {
    var store := new SimpleSessionStore(map[]);
    assert store.storageDir == "sessions";
    var id := store.CreateSession("s-1", Some("test_user"), None, 100);
    var ok1 := store.AddMessage(id, role1, content1, None, 101);
    var ok2 := store.AddMessage(id, role2, content2, None, 102);
    assert ok1 && ok2;
    var messages := store.GetSessionMessages(id);
    assert |messages| == 2;
    assert messages[0] == Message(1, role1, content1, 101, map[]);
    assert messages[1] == Message(2, role2, content2, 102, map[]);
  }

  /** test_empty_message_validation and test_nonexistent_session, for any
      all-whitespace content (" " and "" in the tests) and any id without a
      record ("fake-session-id"): both appends are refused, and the unknown id
      gets no record. */
  method RefusedAppends(known: string, unknown: string, role: string, blank: string, content: string)
    requires known != unknown
    requires AllSpace(blank)
  {
    var store := new SimpleSessionStore(map[]);
    var id := store.CreateSession(known, None, None, 100);
    var refused := store.AddMessage(id, role, blank, None, 101);
    assert !refused;
    assert store.GetSessionMessages(id) == [];
    assert unknown !in store.sessions;
    var orphan := store.AddMessage(unknown, role, content, None, 102);
    assert !orphan;
    assert store.GetSession(unknown) == None;
  }

  /** test_delete_session: the record is gone, and deleting again fails. */
  method DeleteTwice() {
    var store := new SimpleSessionStore(map[]);
    assert store.storageDir == "sessions";
    var id := store.CreateSession("s-1", Some("test_user"), None, 100);
    var first := store.DeleteSession(id);
    assert first;
    assert store.GetSession(id) == None;
    var second := store.DeleteSession(id);
    assert !second;
    var listed := store.ListSessions(None);
    assert listed == [];
  }

  /** test_list_sessions: three records under distinct ids, two of them for
      the first user. */
  method ListByUser(a: string, b: string, c: string, user1: string, user2: string)
    requires a != b && b != c && a != c && user1 != user2
  {
    var store := new SimpleSessionStore(map[]);
    var idA := store.CreateSession(a, Some(user1), None, 100);
    var idB := store.CreateSession(b, Some(user2), None, 101);
    var idC := store.CreateSession(c, Some(user1), None, 102);
    assert MatchingIds(store.sessions, Some(user1)) == {a, c};
    var mine := store.ListSessions(Some(user1));
    assert |mine| == 2;
    assert forall x :: x in mine ==> x.userId == Some(user1);
  }

  /** test_session_persistence, for any user, role and trimmed non-blank
      content ("Persistent message" in the test): a second store over the
      same directory finds the record with its message. */
  method Persistence(id: string, user: string, role: string, content: string)
    requires Strip(content) == content != []
  {
    var store := new SimpleSessionStore(map[]);
    var sid := store.CreateSession(id, Some(user), None, 100);
    var ok := store.AddMessage(sid, role, content, None, 101);
    var reopened := new SimpleSessionStore(store.sessions, store.storageDir);
    var got := reopened.GetSession(sid);
    assert got.Some?;
    assert |got.value.messages| == 1;
    assert got.value.messages[0].content == content;
  }

  /** A cutoff after `datetime.max` raises instead of sweeping: nothing is
      removed. */
  method CleanupOverflow() {
    var store := new SimpleSessionStore(map[]);
    var a := store.CreateSession("a", None, None, 100);
    var before := store.sessions;
    var removed := store.CleanupOldSessions(101, -4_000_000);
    assert removed == None;
    assert store.sessions == before;
  }

  /** cleanup_old_sessions(days_old=0) once the clock has moved on: every
      record is removed and counted. */
  method CleanupEverything(a: string, b: string)
    requires a != b
  {
    var store := new SimpleSessionStore(map[]);
    var idA := store.CreateSession(a, None, None, 100);
    var idB := store.CreateSession(b, None, None, 100);
    var before := store.sessions;
    assert CutoffDefined(101, 0);
    assert ExpiredIds(before, Cutoff(101, 0)) == {a, b};
    assert |{a, b}| == 2;
    var removed := store.CleanupOldSessions(101, 0);
    assert removed == Some(2);
    assert store.sessions == map[];
  }
}
