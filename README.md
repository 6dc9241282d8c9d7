# Content flagging: a Dafny model of `add_flag`

This project models the flag-bookkeeping layer of django-flag (`flag/models.py`).
Users flag a piece of content, identified by a (content type, object id) pair.
The layer keeps one `FlaggedContent` summary per flagged item, with a running
`count`, and an append-only table of `FlagInstance` records, one per flag action.
Each flag action also sends a "content flagged" notification.

Files:

- `models.dfy`, module `Models`: the two record shapes, the notification, the
  default status choices and the column defaults (status `"1"`, no moderator,
  count 1, no recall time).
- `add_flag_spec.dfy`, module `AddFlagSpec`: the store as a value (`Db`), and
  `add_flag` as the function `Step`. It is built from `Find`, `GetOrCreate`
  (the get-or-create on the unique key) and `SaveIncremented` (the save after
  `count = F("count") + 1`), followed by the read-back, the instance insert and
  the notification. `Replay` applies a whole history of calls to the empty
  store. The invariant `WellFormed` and the lemmas about one call and about any
  history live here.
- `flag_store.dfy`, module `Store`: the class `FlagStore`. Its fields are the
  summary table, the instance table and the notification log. `AddFlag`
  updates them in the order the source writes its rows. A ghost `history` of
  calls and the object invariant `Valid` (`WellFormed`, and the tables equal
  `Replay(history)`) connect the object to the lemmas.

Primary keys are positions: the summary with primary key `p` is
`summaries[p]`, and a `FlagInstance` refers to its summary by that key. No row
is ever deleted, so positions behave like auto-increment keys.

Users, content types and timestamps are opaque integers. The time an instance
is stamped with (`timezone.now` in the source) is a parameter of `AddFlag`.

The status choices (`STATUS`, overridable through the setting `FLAG_STATUSES`)
are a constructor parameter of `FlagStore`. `add_flag` never consults them.
A new summary gets the column default `"1"`, or the override passed to the call,
whatever the configured list holds.

## Model

| member | source | states |
|---|---|---|
| `Models.DefaultStatusIsFirstChoice` | flag/models.py:11-17 | the first of the five default choices is the pair (column default `"1"`, "flagged") |
| `AddFlagSpec.Find` | flag/models.py:50-54 | the lookup half of get_or_create: returns the primary key of a row stored under the key, the first one; returns None exactly when no row has the key |
| `AddFlagSpec.GetOrCreate` | flag/models.py:47-54 | get_or_create on (content_type, object_id): `created` holds exactly when no row had the key. An existing row comes back with the table unchanged. Otherwise one row is appended with the creator, the status override or `"1"`, no moderator and count 1 |
| `AddFlagSpec.FindUnique` | flag/models.py:31-32 | under the uniqueness constraint, the row stored under a key is the one the lookup finds |
| `AddFlagSpec.StepOnNewKey` | flag/models.py:47-54 | flagging an item with no summary appends exactly one summary, with count 1, the call's creator, the status override or `"1"`, and no moderator; the new instance points at it |
| `AddFlagSpec.StepOnFlaggedKey` | flag/models.py:55-60 | flagging an item that has a summary keeps its primary key and increments its count by exactly one; creator, status, moderator and all other rows are unchanged; the instance points at it |
| `AddFlagSpec.DefaultsOnlyOnCreation` | flag/models.py:47-57 | once an item has a summary, the creator and status passed to add_flag make no difference to the outcome |
| `AddFlagSpec.StepAppendsInstanceAndEvent` | flag/models.py:62-75 | one call appends exactly one instance, holding the flagger, the comment and the time, not recalled, and pointing at the key's summary. It appends exactly one notification, carrying that summary as stored after the increment and the new instance. It returns that instance. Earlier instances and notifications are untouched |
| `AddFlagSpec.StepKeepsKeys` | flag/models.py:50-60 | a call only appends summaries and never changes a stored key |
| `AddFlagSpec.StepKeepsOtherKeys` | flag/models.py:50-60 | a call leaves the summary of every other key unchanged, at the same primary key |
| `AddFlagSpec.InsertKeepsWellFormed` | flag/models.py:50-75 | inserting a new summary with count 1 together with its first instance and notification keeps the store invariant |
| `AddFlagSpec.IncrementKeepsWellFormed` | flag/models.py:55-75 | incrementing a summary together with adding its instance and a notification with the incremented row keeps the store invariant |
| `AddFlagSpec.StepPreservesWellFormed` | flag/models.py:44-75 | add_flag keeps the invariant. Keys are unique. Each summary's count equals its number of instances and is at least 1. Every instance points at an existing summary and is not recalled. The j-th notification carries the j-th instance and its summary with the count right after that instance |
| `AddFlagSpec.ReplayWellFormed` | flag/models.py:31-32 | after any sequence of add_flag calls the invariant holds, so at most one summary exists per (content_type, object_id) |
| `AddFlagSpec.ReplayCounts` | flag/models.py:55-57 | after any sequence of calls an item has a summary exactly when it was flagged, and the summary's count equals the number of calls that flagged it |
| `AddFlagSpec.StepRecordsCall` | flag/models.py:62-67 | a call extends the one-instance-per-call correspondence by its own call |
| `AddFlagSpec.ReplayRecordsCalls` | flag/models.py:62-73 | after any sequence of calls there is exactly one instance and one notification per call, in call order. Each instance holds its call's flagger, comment and time and points at the summary of its call's key |
| `AddFlagSpec.TwoFlagsOnOnePost` | flag/models.py:44-75 | item 42 is written by u1, flagged by u2 with "spam", then by u3 with "offensive". The result is one summary with creator u1, status "1" and count 2, two instances in order, and notifications carrying counts 1 and 2 |
| `Store.FlagStore.constructor` | flag/models.py:11-17 | an empty store with the configured status choices |
| `Store.FlagStore.WithDefaultStatuses` | flag/models.py:11-17 | an empty store with the five default status choices |
| `Store.FlagStore.Get` | flag/models.py:60 | reading a summary by primary key returns the stored row, or None when no such row exists |
| `Store.FlagStore.GetOrCreate` | flag/models.py:50-54 | the method's result and new summary table are those of `GetOrCreate`; the other tables are unchanged |
| `Store.FlagStore.SaveIncremented` | flag/models.py:56-57 | the stored count of the row goes up by one and the other columns take the in-memory values; nothing else changes |
| `Store.FlagStore.InsertInstance` | flag/models.py:62-67 | appends exactly one instance with the given summary, user, time and comment, not recalled, and returns it |
| `Store.FlagStore.SendContentFlagged` | flag/models.py:69-73 | appends exactly one notification carrying the given summary and instance |
| `Store.FlagStore.AddFlag` | flag/models.py:44-75 | keeps the invariant and appends the call to the history. The new tables and the returned instance are `Step` of the old tables, so every lemma above describes them. Exactly one instance, the returned one, is appended. Exactly one notification is appended, carrying the stored summary and that instance |

## Left out

- `flag/admin.py`: the admin registers an editable view of summaries (with `creator` and `moderator` editable by id) and an inline that can edit and delete instance rows. Edits made there, or anywhere else outside add_flag (changes to status, moderator or count, instance rows changed or deleted), are not modelled. `WellFormed`, `ReplayWellFormed` and `ReplayCounts` describe a store changed only by add_flag.
- `flag/signals.py` is not part of this model. Only the notification itself is modelled (a log of `ContentFlagged` values); the `sender` argument is the constant class and is dropped, and what receivers do is not modelled.
- Persistence failures (store unavailable, constraint violation at the database) are not modelled: every call completes, and both writes and the notification always happen.
- Concurrency between requests, the race handling inside `get_or_create`, and the database-side evaluation of `F("count") + 1`. The increment is one atomic step, and the read-back is a lookup of the stored row.
- Resolution of (content_type, object_id) to a live object through the generic foreign key: only the pair is stored.
- `timezone.now`: the time is a parameter of `AddFlag`.
- Translated labels (`ugettext_lazy`) and the settings lookup: labels are plain strings and the status list is a constructor parameter.
- Status validation against the choices and the one-character column length: `add_flag` checks neither, so the model accepts any status string.
- Recall and moderator assignment: add_flag never sets `when_recalled` or `moderator`, and no function in `flag/models.py` does either. A moderator changing the status (and so `moderator`) through the admin is not modelled, so in this model both stay at their null defaults.
