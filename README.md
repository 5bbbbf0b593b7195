# SimpleSessionStore, modelled in Dafny

`SimpleSessionStore` (session_store.py) keeps chat sessions as JSON files
named after their session ids, one file per record, in a storage directory.
Each record holds a user id, creation and update times, a message count,
free-form metadata and an append-only list of messages. The store offers
these operations on the records: create, append, read, list (with a user
filter, newest first), delete, an age-based sweep, and summary statistics.

This model replaces the directory with the map `sessions` from session id to
record. That map is a field of the class `SessionStore.SimpleSessionStore`,
and the methods update it in place. The modules are:

- `Text` (text.dfy): Python's argument-less `str.strip()` (`Strip`) and
  `str.lower()` (`Lower`), the role normalisation `role.strip().lower()`
  (`NormalizeRole`), and the blank test `not content.strip()` of
  session_store.py:80 (`IsBlank`).
- `Records` (records.dfy): the record and message values, the record
  invariant `WellFormed`, the pure record updates that `create_session` and
  `add_message` perform, and the total message count `TotalMessages` of a map
  of records. It also holds these helpers:
  - `OrEmpty`: `metadata or {}` (session_store.py:57, 94);
  - `Summarize`: the summary built at session_store.py:162-168;
  - `Matches`: the user filter at session_store.py:161;
  - `Cutoff`: `datetime.now() - timedelta(days=days_old)` at
    session_store.py:210;
  - `CutoffDefined`: exactly when that line computes without an
    `OverflowError`.
- `Listing` (listing.dfy): the summary list of `list_sessions`, which is
  sorted most recently updated first by an insertion sort, and the sum
  `SumCounts` that `get_stats` takes over it (session_store.py:239).
- `SessionStore` (session_store.dfy): the class, one method or function per
  public operation of the store. The source's default arguments are kept:
  `storage_dir="sessions"` on the constructor and `days_old=7` on
  `CleanupOldSessions`. Each default is the last parameter.
- `Scenarios` (scenarios.dfy): client methods in the manner of
  test_session_store.py. Each one replays a test against the contracts
  alone.

The class invariant `Valid()` says that every record is stored under its own
id, that its count equals the length of its message list, that its message
ids run 1..n, and that every stored message is normalised. Every method
requires it, and every method that changes the table ensures it again.

Time is an integer count of microseconds since `datetime.min`
(0001-01-01T00:00:00); `datetime` can represent the moments 0 up to
`TimeMax` (9999-12-31T23:59:59.999999). The current time and the fresh
`uuid4()` id are parameters, not reads of a clock or a random source. The
constructor takes the records found in the storage directory as a parameter,
so a second store over the same directory sees what the first one wrote.

## Model

| member | source | states |
|---|---|---|
| Text.TrimStart | session_store.py:80-92 | The result is no longer than the input and does not start with whitespace. It is empty exactly when the input is all whitespace. |
| Text.TrimEnd | session_store.py:80-92 | The result is no longer than the input, does not end with whitespace, and starts with the input's first character. It is empty exactly when the input is all whitespace. |
| Text.Strip | session_store.py:80-92 | `str.strip()`: the result has no whitespace at either end, and it is empty exactly when the input is all whitespace, which is the blank test of `add_message`. |
| Text.TrimStartDrops | session_store.py:80-92 | Leading trimming leaves a suffix of the input and removes only whitespace. |
| Text.TrimEndDrops | session_store.py:80-92 | Trailing trimming leaves a prefix of the input and removes only whitespace. |
| Text.StripDecomposes | session_store.py:80-92 | The stripped string is a contiguous slice of the input, with only whitespace before it and only whitespace after it. |
| Text.StripOfStripped | session_store.py:92 | A string without whitespace at either end is left unchanged by strip. |
| Text.StripIdempotent | session_store.py:92 | Stripping twice gives the same result as stripping once. |
| Text.Lower | session_store.py:91 | `str.lower()` on ASCII: the result has the same length and no upper-case letter, every upper-case letter becomes the lower-case letter at the same place in the alphabet, every other character is kept, and whitespace positions are unchanged. |
| Text.LowerOfNoUpper | session_store.py:91 | Lower-casing a string without upper-case letters leaves it unchanged. |
| Text.NormalizeRole | session_store.py:91 | `role.strip().lower()` has no whitespace at either end, contains no upper-case letter, and is no longer than the given role. |
| Text.NormalizeRoleDecomposes | session_store.py:91 | `role.strip().lower()` is the slice of the role between a whitespace prefix and a whitespace suffix, lower-cased character by character, and it is empty exactly when the role is all whitespace. |
| Text.NormalizeRoleIdempotent | session_store.py:91 | Normalising a role that is already normalised changes nothing. |
| Records.NewSession | session_store.py:51-59 | A new record is well formed, has no messages, a count of 0, and equal creation and update times (both `now`). |
| Records.NewMessage | session_store.py:89-95 | The new message's id is the previous message count plus one. Its role is `NormalizeRole(role)`, its content `Strip(content)` and its timestamp `now`. For non-blank content, the message is normalised: the role is trimmed and lower-case, and the content is trimmed and not empty. The message metadata is the given mapping, or the empty mapping when none is given. |
| Records.Appended | session_store.py:89-99 | A successful append adds exactly one message at the end and keeps the earlier messages. The count becomes the new length and the update time becomes `now`. The session id, user id, creation time and session metadata are kept. |
| Records.AppendedWellFormed | session_store.py:89-98 | Appending non-blank content to a well-formed record keeps it well formed: the count still equals the length, the ids still run 1..n, and every message is still normalised. |
| Records.SweepStep | session_store.py:213-222 | One step of the cleanup scan deletes the visited record, and adds it to the count, exactly when it is expired. |
| Records.TotalMessagesRemove | session_store.py:239 | The total message count does not depend on the order of summation: any record's count can be taken out first. |
| Records.TotalMessagesUpdate | session_store.py:239 | Replacing one record changes the total by the difference of the two counts. `AddMessage` uses it to show that a successful append raises the total by one. |
| Records.TotalMessagesInsert | session_store.py:239 | A record added under a new id adds its count to the total. |
| Records.TotalMessagesDelete | session_store.py:239 | Deleting a record takes its count off the total. Deleting an absent id changes nothing. `DeleteSession` uses it. |
| Listing.Insert | session_store.py:172 | Insertion adds exactly the one element: the result's multiset is the input's plus that element. |
| Listing.InsertSorted | session_store.py:172 | Inserting into a list sorted most recent first keeps it sorted, and the head is either the inserted element or the old head. |
| Listing.SortByRecency | session_store.py:172 | `sort(key=last_updated, reverse=True)`: the result is a permutation of the input, ordered by non-increasing update time. |
| Listing.DistinctPermutation | session_store.py:172 | Reordering a list without repetitions leaves it without repetitions. |
| Listing.CollectKeep | session_store.py:159-169 | In the listing scan, a record kept by the filter contributes exactly one new summary. The collection remains sound, complete, free of repetitions, and of the same size as the set of matching records visited. |
| Listing.CollectSkip | session_store.py:159-161 | In the listing scan, a record dropped by the filter contributes nothing, and the collection stays exact. |
| Listing.CollectedPermutation | session_store.py:171-172 | Sorting an exact collection keeps it exact. |
| Listing.CollectedAll | session_store.py:152-173 | Once every record has been visited, the collection is exactly one summary per matching record and nothing else. |
| Listing.SumCountsIsTotal | session_store.py:238-239 | Summing the counts of a listing with one summary per record gives the total message count of all records. |
| SessionStore.SimpleSessionStore.constructor | session_store.py:19-27 | A store over a directory holds exactly the records already stored there (none for a new directory), provided each is stored under its own id and well formed, and the invariant holds. |
| SessionStore.SimpleSessionStore.CreateSession | session_store.py:39-63 | Exactly one record is added, under the fresh id. It carries the given user id, the given metadata or the empty mapping when none is given, no messages, a count of 0, and `created_at = last_updated = now`. All existing records are unchanged and the invariant is kept. |
| SessionStore.SimpleSessionStore.AddMessage | session_store.py:65-104 | The result is true exactly when the content is not blank and the session exists. On false the whole table is unchanged, so no record is created. On true, only that record changes, it becomes its `Appended` form, and the total message count of the store rises by one. The invariant is kept. |
| SessionStore.SimpleSessionStore.GetSession | session_store.py:106-125 | The stored record is returned exactly when its id is present, and nothing otherwise. Under the invariant, the record carries the requested id and is well formed. |
| SessionStore.SimpleSessionStore.GetSessionMessages | session_store.py:127-140 | An unknown id gives no messages. A known id gives its messages in insertion order, as many as the stored count, numbered from 1, each normalised. |
| SessionStore.SimpleSessionStore.ListSessions | session_store.py:142-173 | The result has one summary for every record the filter keeps (all records when there is no filter) and nothing else. It has no repetitions, its length is the number of matching records, and it is sorted by non-increasing `last_updated`. |
| SessionStore.SimpleSessionStore.DeleteSession | session_store.py:175-196 | The result is true exactly when the id was present. Afterwards the id is absent and every other record is unchanged, so a second delete returns false. A successful delete takes the record's message count off the total. |
| SessionStore.SimpleSessionStore.CleanupOldSessions | session_store.py:198-225 | When `timedelta(days=days_old)` or `now - days_old` days falls outside what `datetime` represents, the call fails (the `OverflowError`) and no record is removed. Otherwise exactly the records created strictly before `now - days_old` days are removed, all others are kept, and the result is the number of records removed. |
| SessionStore.SimpleSessionStore.SweepBefore | session_store.py:211-225 | The scan over every record deletes exactly the records created strictly before the cutoff, keeps all others, and counts the deleted ones. |
| SessionStore.SimpleSessionStore.GetStats | session_store.py:236-246 | It reports `total_sessions` as the number of records, `total_messages` as the sum of their message counts, and the storage directory. The average is 0 with no records and otherwise total messages divided by sessions. |

## Left out

- File I/O: `os.listdir`, `os.path.exists`, `open`/`json.load`/`json.dump`, `os.remove` and the creation of the storage directory (session_store.py:29-37, 116-125, 227-234). The directory is the `sessions` map, so writes and directory scans happen in memory.
- Unreadable or corrupt session files (session_store.py:120-125): the map holds only well-formed records, so a load never fails. In the source such a file is not simply absent. `get_session` returns None for invalid JSON, so listing, stats and cleanup skip it. `delete_session` (session_store.py:186-190) only checks that the file exists, so it deletes the file and returns True. A file that is not valid UTF-8 raises `UnicodeDecodeError`, which line 123 does not catch.
- Failing saves (session_store.py:233-234) and a failing `os.remove` (session_store.py:191-193): the model has no I/O errors, so a save always takes effect and deleting a present record always succeeds.
- SessionStore.SimpleSessionStore.constructor: the records in the directory are a parameter, required to be stored under their own ids and well formed. Files written by something other than the store are not modelled.
- `uuid.uuid4()`: the fresh id is a parameter of `CreateSession`, with the precondition that no record has it.
- SessionStore.SimpleSessionStore.CreateSession: `datetime.now()` is read twice in the source (session_store.py:54-55) and once in the model, so `created_at` and `last_updated` are equal here. In the source they can differ by the time between the two reads.
- SessionStore.SimpleSessionStore.AddMessage: the message timestamp and the record's new `last_updated` (session_store.py:93, 99) are one `now` here, not two successive clock reads.
- ISO 8601 timestamps: the model compares times as integers (microseconds). `isoformat`/`fromisoformat` and the string ordering used by the sort are left out. For timestamps written by the store, string order and time order agree.
- Naive local time, including daylight-saving jumps, is not modelled in the cutoff of `cleanup_old_sessions`. Its `OverflowError` is the result `None`; Python would raise it to the caller.
- SessionStore.SimpleSessionStore.GetStats: the average is an exact real quotient, not a Python float, and the empty case is `0.0` where the source returns the integer `0`.
- Text.Lower: only ASCII letters are lower-cased. Python's `str.lower()` also maps non-ASCII letters, and those are kept unchanged here.
- Listing.SortByRecency: the insertion sort is stable like Python's `list.sort`, but its contract states only order and permutation, not stability. The order of records with equal `last_updated` also depends on `os.listdir` order, which the model leaves arbitrary.
- Metadata values are opaque JSON values. The store never inspects them.
- `print` logging throughout session_store.py.
- backend/app.py (Flask routes and a global store) and lab_runner.py (a demonstration script) only call the store, so they are not part of this model.
- Concurrency, including the lost update between two `add_message` calls on the same session: the store is single-writer and has no locking.
- Scenarios: test_get_stats is not replayed as a client method. `GetStats` is specified against `TotalMessages`, and the lemmas `TotalMessagesInsert`, `TotalMessagesUpdate` and `TotalMessagesDelete` state how create, append and delete change that total.
