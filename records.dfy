/** The session record and its messages as values, and the pure operations on
    them that `SimpleSessionStore` performs between loading a record and saving
    it back (session_store.py). */
module Records {
  import opened Text

  datatype Option<+T> = None | Some(value: T)

  /** A moment on the store's clock, in microseconds since `datetime.min`
      (0001-01-01T00:00:00); `datetime.now()` is passed in rather than read. */
  type Time = int

  /** `timedelta(days=1)` on that clock. */
  const MicrosPerDay: int := 86_400_000_000

  /** `datetime.max` (9999-12-31T23:59:59.999999): the days 0001-01-01 to
      9999-12-31 are 3_652_059 days. */
  const TimeMax: Time := 3_652_059 * MicrosPerDay - 1

  /** The largest day count a `timedelta` holds, in either direction. */
  const MaxDeltaDays: int := 999_999_999

  /** A moment that `datetime` can represent. */
  predicate Representable(t: Time) {
    0 <= t <= TimeMax
  }

  /** A JSON value, the content of a metadata mapping. The store never looks
      inside one. */
  datatype Json =
    | JNull
    | JBool(b: bool)
    | JNumber(n: real)
    | JString(s: string)
    | JArray(items: seq<Json>)
    | JObject(fields: map<string, Json>)

  type Metadata = map<string, Json>

  datatype Message = Message(id: nat, role: string, content: string, timestamp: Time, metadata: Metadata)

  datatype Session = Session(
    sessionId: string,
    userId: Option<string>,
    createdAt: Time,
    lastUpdated: Time,
    messageCount: nat,
    metadata: Metadata,
    messages: seq<Message>)

  /** What `list_sessions` reports of a record: everything but the messages
      and the metadata. */
  datatype Summary = Summary(
    sessionId: string,
    userId: Option<string>,
    createdAt: Time,
    lastUpdated: Time,
    messageCount: nat)

  /** `metadata or {}`: an absent mapping is stored as the empty one. */
  function OrEmpty(metadata: Option<Metadata>): Metadata {
    if metadata.Some? then metadata.value else map[]
  }

  /** A stored message: role trimmed and lower-cased, content trimmed and not
      empty. */
  predicate Normalized(m: Message) {
    && Stripped(m.role) && NoUpper(m.role)
    && Stripped(m.content) && m.content != []
  }

  /** The message ids run 1, 2, ..., n in list order. */
  predicate NumberedFromOne(messages: seq<Message>) {
    forall i :: 0 <= i < |messages| ==> messages[i].id == i + 1
  }

  /** The record invariant every operation of the store keeps. */
  predicate WellFormed(s: Session) {
    && s.messageCount == |s.messages|
    && NumberedFromOne(s.messages)
    && forall i :: 0 <= i < |s.messages| ==> Normalized(s.messages[i])
  }

  /** The record `create_session` writes (session_store.py:51-59). */
  function NewSession(sessionId: string, userId: Option<string>, metadata: Option<Metadata>, now: Time): (r: Session)
    ensures WellFormed(r)
    ensures r.messages == [] && r.messageCount == 0
    ensures r.createdAt == now && r.lastUpdated == now
  {
    Session(sessionId, userId, now, now, 0, OrEmpty(metadata), [])
  }

  /** The message `add_message` builds for a record holding `count` messages
      (session_store.py:89-95). */
  function NewMessage(count: nat, role: string, content: string, metadata: Option<Metadata>, now: Time): (m: Message)
    ensures m.id == count + 1
    ensures m.role == NormalizeRole(role) && m.content == Strip(content) && m.timestamp == now
    ensures !IsBlank(content) ==> Normalized(m)
    ensures metadata.None? ==> m.metadata == map[]
    ensures metadata.Some? ==> m.metadata == metadata.value
  {
    Message(count + 1, NormalizeRole(role), Strip(content), now, OrEmpty(metadata))
  }

  /** The record after the successful branch of `add_message`
      (session_store.py:89-99): one new message at the end, the count and the
      update time refreshed, everything else as it was. */
  function Appended(s: Session, role: string, content: string, metadata: Option<Metadata>, now: Time): (r: Session)
    ensures |r.messages| == |s.messages| + 1
    ensures r.messages[..|s.messages|] == s.messages
    ensures r.messages[|s.messages|] == NewMessage(|s.messages|, role, content, metadata, now)
    ensures r.messageCount == |r.messages| && r.lastUpdated == now
    ensures r.sessionId == s.sessionId && r.userId == s.userId
    ensures r.createdAt == s.createdAt && r.metadata == s.metadata
  {
    var messages := s.messages + [NewMessage(|s.messages|, role, content, metadata, now)];
    s.(messages := messages, messageCount := |messages|, lastUpdated := now)
  }

  /** Appending non-blank content keeps a record well formed: the count
      follows the list, the new id continues the numbering, and the new
      message is normalised. */
  lemma AppendedWellFormed(s: Session, role: string, content: string, metadata: Option<Metadata>, now: Time)
    requires WellFormed(s) && !IsBlank(content)
    ensures WellFormed(Appended(s, role, content, metadata, now))
  {
    var r := Appended(s, role, content, metadata, now);
    var n := |s.messages|;
    var added := NewMessage(n, role, content, metadata, now);
    assert Normalized(added);
    assert r.messages == s.messages + [added];
    assert NumberedFromOne(r.messages);
    forall i | 0 <= i < |r.messages| ensures Normalized(r.messages[i]) {
      if i < n {
        assert r.messages[i] == s.messages[i];
      }
    }
  }

  function Summarize(s: Session): Summary {
    Summary(s.sessionId, s.userId, s.createdAt, s.lastUpdated, s.messageCount)
  }

  /** The filter of `list_sessions`: no filter keeps every record, a user id
      keeps the records created with exactly that user id. */
  predicate Matches(s: Session, userFilter: Option<string>) {
    userFilter.None? || s.userId == userFilter
  }

  ghost function MatchingIds(m: map<string, Session>, userFilter: Option<string>): set<string> {
    set id | id in m && Matches(m[id], userFilter)
  }

  /** `datetime.now() - timedelta(days=daysOld)`. */
  function Cutoff(now: Time, daysOld: int): Time {
    now - daysOld * MicrosPerDay
  }

  /** The cutoff can be computed without an `OverflowError`: `timedelta`
      accepts the day count and the difference is a representable moment. */
  predicate CutoffDefined(now: Time, daysOld: int) {
    -MaxDeltaDays <= daysOld <= MaxDeltaDays && Representable(Cutoff(now, daysOld))
  }

  /** The records `cleanup_old_sessions` removes: created strictly before the
      cutoff. */
  ghost function ExpiredIds(m: map<string, Session>, cutoff: Time): set<string> {
    set id | id in m && m[id].createdAt < cutoff
  }

  /** One turn of the scan in `cleanup_old_sessions`: visiting a not yet
      visited record deletes it exactly when it is expired. */
  lemma SweepStep(m: map<string, Session>, expired: set<string>, done: set<string>, id: string)
    requires id !in done
    ensures id in expired ==> m - (expired * done) - {id} == m - (expired * (done + {id}))
    ensures id in expired ==> |expired * (done + {id})| == |expired * done| + 1
    ensures id !in expired ==> expired * (done + {id}) == expired * done
  {
    if id in expired {
      assert expired * (done + {id}) == expired * done + {id};
    }
  }

  ghost function Pick(m: map<string, Session>): string
    requires m != map[]
  {
    var id :| id in m; id
  }

  /** The sum of the message counts of all records of `m`. */
  ghost function TotalMessages(m: map<string, Session>): nat
    decreases |m|
  {
    if m == map[] then 0
    else
      var id := Pick(m);
      m[id].messageCount + TotalMessages(m - {id})
  }

  /** The total does not depend on the order the records are added up in:
      any record can be taken out first. */
  lemma {:induction false} TotalMessagesRemove(m: map<string, Session>, id: string)
    requires id in m
    ensures TotalMessages(m) == m[id].messageCount + TotalMessages(m - {id})
    decreases |m|
  {
    var p := Pick(m);
    if p != id {
      assert |m - {p}| < |m|;
      TotalMessagesRemove(m - {p}, id);
      TotalMessagesRemove(m - {id}, p);
      assert m - {p} - {id} == m - {id} - {p};
    }
  }

  /** Replacing one record changes the total by the difference of its counts:
      a successful append raises the total by one. */
  lemma TotalMessagesUpdate(m: map<string, Session>, id: string, s: Session)
    requires id in m
    ensures TotalMessages(m[id := s]) + m[id].messageCount == TotalMessages(m) + s.messageCount
  {
    TotalMessagesRemove(m, id);
    TotalMessagesRemove(m[id := s], id);
    assert m[id := s] - {id} == m - {id};
  }

  /** Adding a record under a new key adds its count: a new session adds
      nothing. */
  lemma TotalMessagesInsert(m: map<string, Session>, id: string, s: Session)
    requires id !in m
    ensures TotalMessages(m[id := s]) == TotalMessages(m) + s.messageCount
  {
    TotalMessagesRemove(m[id := s], id);
    assert m[id := s] - {id} == m;
  }

  /** Deleting a record takes its count off the total. */
  lemma TotalMessagesDelete(m: map<string, Session>, id: string)
    ensures id in m ==> TotalMessages(m - {id}) + m[id].messageCount == TotalMessages(m)
    ensures id !in m ==> TotalMessages(m - {id}) == TotalMessages(m)
  {
    if id in m {
      TotalMessagesRemove(m, id);
    } else {
      assert m - {id} == m;
    }
  }
}
