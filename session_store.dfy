/** `SimpleSessionStore` (session_store.py) over an in-memory storage
    namespace: the directory of `<session_id>.json` files is the map
    `sessions` from session id to the record that file holds. */
module SessionStore {
  import opened Text
  import opened Records
  import opened Listing

  /** What `get_stats` reports. */
  datatype Stats = Stats(
    totalSessions: nat,
    totalMessages: nat,
    storageDirectory: string,
    averageMessagesPerSession: real)

  class SimpleSessionStore {
    const storageDir: string
    /** The storage namespace: one record per session file. */
    var sessions: map<string, Session>

    /** Every record is stored under its own id and keeps its message list,
        count and numbering consistent. */
    ghost predicate Valid()
      reads this
    {
      forall id :: id in sessions ==> sessions[id].sessionId == id && WellFormed(sessions[id])
    }

    /** A store over a storage directory whose files hold the records of
        `existing` (session_store.py:19-27): what an earlier store wrote there
        is what this one finds. */
    constructor (existing: map<string, Session>, storageDir: string := "sessions")
      requires forall id :: id in existing ==> existing[id].sessionId == id && WellFormed(existing[id])
      ensures Valid()
      ensures this.storageDir == storageDir && sessions == existing
    {
      this.storageDir := storageDir;
      sessions := existing;
    }

    /** `create_session(user_id, metadata)`; `freshId` stands for the new
        `uuid4()` and `now` for the clock. */
    method CreateSession(freshId: string, userId: Option<string>, metadata: Option<Metadata>, now: Time)
      returns (sessionId: string)
      requires Valid()
      requires freshId !in sessions
      modifies this
      ensures Valid()
      ensures sessionId == freshId
      ensures sessions.Keys == old(sessions).Keys + {sessionId}
      ensures forall id :: id in old(sessions) ==> sessions[id] == old(sessions)[id]
      ensures var s := sessions[sessionId];
        && s.sessionId == sessionId && s.userId == userId
        && (metadata.None? ==> s.metadata == map[])
        && (metadata.Some? ==> s.metadata == metadata.value)
        && s.createdAt == now && s.lastUpdated == now
        && s.messages == [] && s.messageCount == 0
    {
      sessionId := freshId;
      sessions := sessions[sessionId := NewSession(sessionId, userId, metadata, now)];
    }

    /** `add_message(session_id, role, content, metadata)`: blank content and
        an unknown session are refused and change nothing; otherwise the record
        gets one more message. */
    method AddMessage(sessionId: string, role: string, content: string, metadata: Option<Metadata>, now: Time)
      returns (ok: bool)
      requires Valid()
      modifies this
      ensures Valid()
      ensures ok <==> !IsBlank(content) && sessionId in old(sessions)
      ensures !ok ==> sessions == old(sessions)
      ensures ok ==> sessions == old(sessions)[sessionId := Appended(old(sessions)[sessionId], role, content, metadata, now)]
      ensures ok ==> TotalMessages(sessions) == TotalMessages(old(sessions)) + 1
    {
      if Strip(content) == [] {
        return false;
      }
      var found := GetSession(sessionId);
      if found.None? {
        return false;
      }
      AppendedWellFormed(found.value, role, content, metadata, now);
      TotalMessagesUpdate(sessions, sessionId, Appended(found.value, role, content, metadata, now));
      sessions := sessions[sessionId := Appended(found.value, role, content, metadata, now)];
      ok := true;
    }

    /** `get_session(session_id)`: the stored record, or nothing for an id
        without a file. */
    function GetSession(sessionId: string): (r: Option<Session>)
      reads this
      ensures r.Some? <==> sessionId in sessions
      ensures r.Some? ==> r.value == sessions[sessionId]
      ensures Valid() && r.Some? ==> r.value.sessionId == sessionId && WellFormed(r.value)
    {
      if sessionId in sessions then Some(sessions[sessionId]) else None
    }

    /** `get_session_messages(session_id)`: the messages in insertion order,
        numbered from one, as many as the stored count; none for an unknown
        id. */
    function GetSessionMessages(sessionId: string): (r: seq<Message>)
      reads this
      ensures sessionId !in sessions ==> r == []
      ensures sessionId in sessions ==> r == sessions[sessionId].messages
      ensures Valid() && sessionId in sessions ==>
        |r| == sessions[sessionId].messageCount && NumberedFromOne(r)
      ensures Valid() ==> forall i :: 0 <= i < |r| ==> Normalized(r[i])
    {
      match GetSession(sessionId)
      case Some(s) => s.messages
      case None => []
    }

    /** `list_sessions(user_filter)`: one summary for each record the filter
        keeps, and nothing else, most recently updated first. */
    method ListSessions(userFilter: Option<string>) returns (listed: seq<Summary>)
      requires Valid()
      ensures SortedByRecency(listed)
      ensures forall x :: x in listed ==>
        x.sessionId in sessions && Matches(sessions[x.sessionId], userFilter) && x == Summarize(sessions[x.sessionId])
      ensures forall id :: id in sessions && Matches(sessions[id], userFilter) ==> Summarize(sessions[id]) in listed
      ensures Distinct(listed)
      ensures |listed| == |MatchingIds(sessions, userFilter)|
    {
      var table := sessions;
      var todo := table.Keys;
      var found: seq<Summary> := [];
      ghost var done: set<string> := {};
      while todo != {}
        invariant todo <= table.Keys && done == table.Keys - todo
        invariant Collected(found, table, done, userFilter)
        decreases todo
      {
        var id :| id in todo;
        if Matches(table[id], userFilter) {
          CollectKeep(found, table, done, userFilter, id);
          found := found + [Summarize(table[id])];
        } else {
          CollectSkip(found, table, done, userFilter, id);
        }
        todo := todo - {id};
        done := done + {id};
      }
      listed := SortByRecency(found);
      CollectedPermutation(found, listed, table, done, userFilter);
      CollectedAll(listed, table, done, userFilter);
    }

    /** `delete_session(session_id)`: true exactly when the record existed;
        afterwards it is gone and nothing else changed. */
    method DeleteSession(sessionId: string) returns (ok: bool)
      requires Valid()
      modifies this
      ensures Valid()
      ensures ok <==> sessionId in old(sessions)
      ensures sessions == old(sessions) - {sessionId}
      ensures ok ==> TotalMessages(sessions) + old(sessions)[sessionId].messageCount == TotalMessages(old(sessions))
    {
      if sessionId in sessions {
        TotalMessagesDelete(sessions, sessionId);
        sessions := sessions - {sessionId};
        ok := true;
      } else {
        ok := false;
      }
    }

    /** `cleanup_old_sessions(days_old)`: when the cutoff `now - days_old`
        days overflows, the `OverflowError` (modelled as `None`) leaves every
        record in place; otherwise it removes exactly the records created
        before the cutoff, keeps all others, and returns how many it removed. */
    method CleanupOldSessions(now: Time, daysOld: int := 7) returns (removed: Option<nat>)
      requires Valid()
      modifies this
      ensures Valid()
      ensures removed.None? <==> !CutoffDefined(now, daysOld)
      ensures removed.None? ==> sessions == old(sessions)
      ensures removed.Some? ==> sessions == old(sessions) - ExpiredIds(old(sessions), Cutoff(now, daysOld))
      ensures removed.Some? ==> removed.value == |ExpiredIds(old(sessions), Cutoff(now, daysOld))|
    {
      if !CutoffDefined(now, daysOld) {
        return None;
      }
      var count := SweepBefore(Cutoff(now, daysOld));
      removed := Some(count);
    }

    /** The scan of `cleanup_old_sessions` over every record: deletes exactly
        the records created before `cutoff` and counts them. */
    method SweepBefore(cutoff: Time) returns (count: nat)
      requires Valid()
      modifies this
      ensures Valid()
      ensures sessions == old(sessions) - ExpiredIds(old(sessions), cutoff)
      ensures count == |ExpiredIds(old(sessions), cutoff)|
    {
      ghost var expired := ExpiredIds(sessions, cutoff);
      count := 0;
      var todo := sessions.Keys;
      ghost var done: set<string> := {};
      while todo != {}
        invariant Valid()
        invariant todo <= old(sessions).Keys && done == old(sessions).Keys - todo
        invariant sessions == old(sessions) - (expired * done)
        invariant count == |expired * done|
        decreases todo
      {
        var id :| id in todo;
        var record := GetSession(id);
        SweepStep(old(sessions), expired, done, id);
        if record.Some? && record.value.createdAt < cutoff {
          var ok := DeleteSession(id);
          if ok {
            count := count + 1;
          }
        }
        todo := todo - {id};
        done := done + {id};
      }
      assert expired * done == expired;
    }

    /** `get_stats()`: the number of records, the sum of their message counts,
        the storage directory, and the mean count (0 with no records). */
    method GetStats() returns (stats: Stats)
      requires Valid()
      ensures stats.totalSessions == |sessions.Keys|
      ensures stats.totalMessages == TotalMessages(sessions)
      ensures stats.storageDirectory == storageDir
      ensures stats.totalSessions == 0 ==> stats.averageMessagesPerSession == 0.0
      ensures stats.totalSessions > 0 ==>
        stats.averageMessagesPerSession == stats.totalMessages as real / stats.totalSessions as real
    {
      var listed := ListSessions(None);
      assert MatchingIds(sessions, None) == sessions.Keys;
      var total := SumCounts(listed);
      SumCountsIsTotal(listed, sessions);
      var average := 0.0;
      if |listed| > 0 {
        average := total as real / |listed| as real;
      }
      stats := Stats(|listed|, total, storageDir, average);
    }
  }
}
