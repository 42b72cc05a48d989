# Telegram mass inviter: a verified model of the invitation engine

This project models the core of a Telegram "mass inviter". The inviter reads a list
of usernames from a CSV file, invites them in batches to a chat, and keeps a JSON
checkpoint so that an interrupted run can resume.

The model covers:

- **Checkpoint store** (`progress_store.dfy`, module `ProgressStore`).
  - `load_progress` and `save_progress` of `utils.py` are functions over an abstract
    file state: absent, undecodable, unreadable, or holding a record.
  - `save_progress` takes a write outcome: written, `open` failed, or a write that
    broke off after truncating the file.
  - The removal of the file at the end of a run is modelled too.
- **Username list** (`username_list.dfy`, module `UsernameList`).
  - This is the pure part of `get_usernames_from_csv`: the URL guard, and the row loop
    that strips whitespace and leading `@`s and drops empty names and the header.
    The loop is a method proved against a function.
  - The processed filter is a function. It keeps CSV order and duplicates.
- **Invitation engine** (`inviter_core.dfy`, module `InviterCore`).
  - The per-username state machine of `_process_chunk`, with the adaptive delay.
  - The batch slicing of `run_invitation`.
  - The class `Inviter`, whose fields are the fields `run_invitation` updates in
    place. Two of its methods are loops: `ProcessChunk` (the loop of `_process_chunk`)
    and `RunBatches` (the batch loop of `run_invitation`). They are proved against the
    specification functions `Process`, `Chunks`, `BatchWaits` and `RunWaits`, and the
    ghost batch log `BatchLog`.
  - `RunBatch`, `CheckpointBatch` and `RunBatchAt` are not loops. They are the body of
    one pass of the batch loop. `RunInvitation` is the whole method: it runs the chat
    check once and then calls `RunBatches`.
  - Remote calls are an oracle: for each username a `Reply` says how `get_users`,
    `get_chat_member` and `add_chat_members` end.
  - Sleeps are appended to a ghost log of waits. The clock and the fate of every
    checkpoint write are parameters.
- **Resume wiring** (`resume.dfy`, module `Resume`). This is how `main.py` combines
  the checkpoint with the filtered list, and the defect that follows (see Findings).
- **Helpers** (`seqs.dfy`, module `Seqs`): `Option`, `Drop` (Python's `xs[k:]`), `Concat`,
  and `SetToSeq` (`list(some_set)`, in an unspecified order).

Where one might expect otherwise, the model follows the code:

- The delay saved in the checkpoint is never read back. Every run starts at
  `INITIAL_DELAY_SECONDS`.
- Duplicate usernames are kept.
- Usernames are not case-normalised. Only the header test lower-cases.
- A `get_chat_member` call that raises anything, `FloodWait` included, is swallowed,
  and the add is attempted.
- The checkpoint's skipped names are contained in the processed names *or* the
  skipped names of the checkpoint the run started from. This holds whether or not
  the initial skipped list lies inside the initial processed list.

## Model

| member | source | states |
|---|---|---|
| ProgressStore.LoadProgress | utils.py:12-33 | a stored record is returned as it is; a missing, undecodable or unreadable file gives empty lists, the initial delay, batch 0 and no timestamp, and nothing is raised |
| ProgressStore.SaveProgress | utils.py:35-55 | after a completed write, every later load returns exactly the four saved fields plus the timestamp; a failed `open` leaves the old file; a broken-off write leaves a file that loads as the default; no failure propagates |
| ProgressStore.RemoveProgress | inviter_core.py:179-180 | after removal a load starts over from the default record |
| Seqs.SetToSeq | inviter_core.py:137 | `list(set(..))` holds every element exactly once and nothing else |
| UsernameList.LStripSpec | utils.py:79 | `lstrip` removes the longest prefix made of the given characters and nothing else |
| UsernameList.RStripSpec | utils.py:79 | `rstrip` removes the longest suffix made of the given characters and nothing else |
| UsernameList.Normalize | utils.py:79 | a normalised name never starts with `@` |
| UsernameList.NormalizeCuts | utils.py:79 | a normalised name is one contiguous piece of the cell; only whitespace and `@` are cut from the front and only whitespace from the back |
| UsernameList.SpaceAfterAtKept | utils.py:79 | whitespace after the `@`s survives: `"@ bob"` becomes `" bob"` |
| UsernameList.KeptNames | utils.py:77-81 | every kept name is non-empty, is not the header and does not start with `@`; there are at most as many names as rows |
| UsernameList.CollectUsernames | utils.py:75-81 | the row loop builds exactly `KeptNames` of the rows |
| UsernameList.KeptNamesMembership | utils.py:77-81 | a name is collected if and only if some non-empty row normalises to it and it is neither empty nor the header |
| UsernameList.KeptNamesAppend | utils.py:77-81 | CSV order is kept: the names of two row blocks are the names of the first followed by those of the second |
| UsernameList.DuplicatesKept | utils.py:77-84 | the same handle on two rows (`@bob`, `bob `) is kept twice |
| UsernameList.FilterUnprocessed | utils.py:84 | no processed name survives, and every other name keeps its multiplicity |
| UsernameList.FilterUnprocessedAppend | utils.py:84 | the filter keeps order: it distributes over concatenation |
| UsernameList.GetUsernamesFromCsv | utils.py:57-97 | an empty or non-`http` URL, a request error or a parse error gives `[]`; otherwise the kept names minus the processed ones, none starting with `@` |
| InviterCore.ConfigSettings | config.py:42-56 | the shipped settings (15, 5, 60, 50, 300) meet the inviter's assumptions: positive batch size, non-negative increment, initial delay at most the cap |
| InviterCore.RaiseDelay | inviter_core.py:97 | the raised delay is at most the cap and at most the old delay plus the increment, is one of the two, and does not drop below a delay within the cap |
| InviterCore.Classify | inviter_core.py:63-121 | one outcome per username. Invited if and only if the add is reached and returns. Skipped if and only if the member is listed, or `get_users` or the reached add raised `UserAlreadyParticipant` or `UserPrivacyRestricted`. Failed if and only if either raised an invalid-username error or any other error. Throttled if and only if either raised `FloodWait`, carrying its wait. A failed membership lookup falls through to the add |
| InviterCore.ProcessedIsChunk | inviter_core.py:63-121 | the processed list of a batch is the batch itself, in order, each name appended once |
| InviterCore.ProcessTallies | inviter_core.py:60-121 | success, skipped and failed each grow by the number of replies of their class; a throttle counts nowhere |
| InviterCore.CountPartition | inviter_core.py:63-121 | every reply falls into exactly one of the four classes |
| InviterCore.TalliesAddUp | inviter_core.py:60-123 | success + skipped + failed equals the batch size minus the throttled names |
| InviterCore.SkippedNamesMembership | inviter_core.py:72-111 | a name enters the skipped list if and only if its reply is of the skip class |
| InviterCore.SkippedNamesFromChunk | inviter_core.py:75-110 | the skipped list only receives names of the batch |
| InviterCore.DelayClosedForm | inviter_core.py:92-98 | after a batch with t throttles the delay is the raise of line 97 applied t times to the starting delay |
| InviterCore.RaisedDelayClosedForm | inviter_core.py:97 | t raises in a row give `min(d + t * increment, max)` |
| InviterCore.RaisedTwice | inviter_core.py:97 | raising for a throttles and then for b more is raising for a + b |
| InviterCore.DelayBounds | inviter_core.py:88-97 | within a batch the delay never decreases, never passes the cap, and changes only when there was a throttle |
| InviterCore.WaitsFollowOutcomes | inviter_core.py:83-98 | one pacing wait per successful invitation, one flood pause per throttle, no batch pause inside a batch |
| InviterCore.WaitsInOrder | inviter_core.py:83-98 | a batch sleeps exactly `BatchWaits`, in batch order: after a successful add, the delay as raised by the throttles before that name; after a throttle, `e.value`; after a skip or a failure, nothing |
| InviterCore.SkippedNamesAreSkipSet | inviter_core.py:72-111 | the skipped set gains exactly the batch names whose reply is of the skip class |
| InviterCore.SkipSetAppend | inviter_core.py:72-111 | the skip-class names of two consecutive blocks are the union of those of each block |
| InviterCore.BatchClosedForms | inviter_core.py:60-121 | from a fresh batch state, the delay is raised once per throttle, the skipped names are the skip-class names, and the waits are `BatchWaits` |
| InviterCore.ChunksTile | inviter_core.py:149-150 | the batches concatenate back to the list, and each is non-empty and at most the batch size long |
| InviterCore.ChunksCover | inviter_core.py:143-149 | q batches cover the list and q - 1 would not |
| InviterCore.ChunksCount | inviter_core.py:143 | the number of batches is `(len + c - 1) // c`, the `total_chunks` of the log line |
| InviterCore.ChunksAt | inviter_core.py:149-150 | the batch at offset i is `xs[i:i+c]`, followed by the batches from i + c |
| InviterCore.OffsetIsProduct | inviter_core.py:146 | stepping c names per batch reaches offset `q * c` after q batches |
| InviterCore.BatchNumberAt | inviter_core.py:146-151 | at the k-th offset after the resume point, `i // c` is `last_chunk + k` |
| InviterCore.NextBatch | inviter_core.py:149-150 | taking the batch at offset i moves the walk to offset i + c without losing or repeating a name |
| InviterCore.GetChatInfo | inviter_core.py:33-50 | the run may go ahead if and only if the invite link is set and the account's privileges allow inviting; a missing link or missing right is a configuration error |
| InviterCore.BatchLogNumbered | inviter_core.py:151-176 | batch j of a run is numbered `last_chunk + j + 1`, saves that number, and is followed by a pause unless it is the last |
| InviterCore.BatchLogRecords | inviter_core.py:135-169 | the checkpoint of batch j holds exact values. With N the names of batches 0..j and R their replies: the processed set is the progress before the run plus N, the skipped set is the skips before the run plus the skip-class names of N, and the delay is the starting delay raised once per throttle in R. Both lists are also free of repeats, and the delay lies between the starting delay and the cap |
| InviterCore.BatchLogExact | inviter_core.py:135-169 | the checkpoint of batch j holds exactly the processed set, skipped set and delay that the names and replies of batches 0..j give |
| InviterCore.ExactRecordStep | inviter_core.py:159-169 | if a checkpoint moves on from the previous one by exactly its batch, and the previous one held the values of the names before, then it holds the values of those names followed by the batch |
| InviterCore.BatchLogGrows | inviter_core.py:159-169 | later checkpoints hold every name earlier ones held, and a delay at least as large |
| InviterCore.BatchLogFileTrail | inviter_core.py:163-169 | each batch's file is `save_progress` applied to the file the previous batch left |
| InviterCore.LoopingStart | inviter_core.py:146-149 | the batch loop starts at the saved batch's offset with nothing taken |
| InviterCore.LoopingStep | inviter_core.py:149-176 | one pass of the batch loop keeps the walk, the processed and skipped sets, the batch log, the file and the pause count in step |
| InviterCore.LoopingDone | inviter_core.py:149-176 | when the loop ends, the batches taken are exactly the batches of `usernames[last*c:]` |
| InviterCore.RunWaitsAt | inviter_core.py:149-176 | the sleeps of the run from offset i are the batch's sleeps, then a batch pause unless it is the last batch, then the sleeps of the run from i + c at the raised delay |
| InviterCore.OutcomesStart | inviter_core.py:146-149 | at the resume offset the delay, the skipped set and the waits still to come are those of the whole run |
| InviterCore.DelayStep | inviter_core.py:149-176 | one batch moves the delay to the raise for its throttles, and the delay the rest of the run reaches stays the one the whole run reaches |
| InviterCore.SkipStep | inviter_core.py:149-176 | one batch adds its skip-class names, and the skipped set the rest of the run reaches stays the one the whole run reaches |
| InviterCore.WaitsStep | inviter_core.py:149-176 | one batch appends its sleeps and a batch pause unless it is the last, and the waits the rest of the run gives stay those the whole run gives |
| InviterCore.OutcomesDone | inviter_core.py:149-176 | when the loop ends, the delay is the raise for every throttle of `usernames[last*c:]`, the skipped set is the earlier skips plus its skip-class names, and the waits are `RunWaits` |
| InviterCore.LoopStateStart | inviter_core.py:146-149 | the loop state (walk, batch log, delay, skipped set, waits) holds at the resume offset |
| InviterCore.LoopStateStep | inviter_core.py:149-176 | one batch that does what `RunBatch` promises keeps the loop state and moves it to offset i + c |
| InviterCore.LoopStateDone | inviter_core.py:149-176 | when the loop ends, the batches, the processed set, the batch log, the pause count, the delay, the skipped set and the waits are those of the whole run, and each batch carries the replies of its own names |
| InviterCore.ReplyWalkStep | inviter_core.py:149-150 | the replies walk batch by batch beside the names: taking the replies at offset i moves the walk to offset i + c |
| InviterCore.Inviter.constructor | inviter_core.py:13-31 | the delay starts at the configured initial delay; the session lists are empty |
| InviterCore.Inviter.ProcessChunk | inviter_core.py:52-123 | the loop returns the tallies and processed list of `Process`, appends its skipped names to the session list, and leaves the delay and the waits as `Process` says |
| InviterCore.Inviter.RunBatch | inviter_core.py:150-176 | one batch. The delay becomes the raise for the batch's throttles. The skipped set gains exactly its skip-class names. The waits gain exactly `BatchWaits`, then a batch pause exactly when asked. The names join the processed set, and the checkpoint is saved with the batch number and the current sets |
| InviterCore.Inviter.CheckpointBatch | inviter_core.py:159-176 | the processed names join the total, the checkpoint is saved with the batch number, the current delay and the current sets, and a batch pause is added exactly when asked |
| InviterCore.Inviter.RunBatchAt | inviter_core.py:149-176 | one pass of the batch loop at offset i keeps the loop state and moves it to offset i + c, past the batch `usernames[i:i+c]` |
| InviterCore.Inviter.RunBatches | inviter_core.py:146-176 | the batches are those of `usernames[last*c:]`, the processed set gains exactly those names, and the batch log holds. The final delay is the raise for all their throttles. The skipped set is the earlier skips plus their skip-class names. The waits gained are exactly `RunWaits` of their replies. Batch j carries the replies of its own names, and its checkpoint holds exactly the values of batches 0..j (see `BatchLogRecords`) |
| InviterCore.Inviter.RunInvitation | inviter_core.py:125-186 | the run completes if and only if the chat check passes. An aborted run processes no batch, sleeps no time, keeps the delay and leaves the file. A completed run processes `usernames[last*c:]` in batches, keeps the batch log and pause count, and removes the file. Its final delay, skipped set and waits are those of the batch loop, and each of its checkpoints holds exactly the values of the batches up to it, counted from the initial processed and skipped lists. The initial skipped names are kept either way |
| Resume.Pending | main.py:16-23 | the list main.py passes holds exactly the CSV names the checkpoint has not processed |
| Resume.AttemptedAsWritten | main.py:43-48 | as written, a resumed run attempts only the pending list from offset `last_chunk * c`, and nothing once that offset reaches its end |
| Resume.AttemptedFixed | main.py:43-48 | starting the filtered list at offset 0 attempts every pending name and no other |
| Resume.ResumeSkipsUnattempted | main.py:20-48 | for rows a, b, c, d, batch size 2 and a checkpoint after batch 1, name c is pending but never attempted as written, and attempted when fixed |

## Left out

- Network and platform calls (`get_chat`, `get_chat_member`, `get_users`, `add_chat_members`, `requests.get`) are an oracle given as parameters. The connection handling of `async with self.app` is not modelled.
- `asyncio.sleep`: waits are recorded in a ghost log and are not timed. Cancellation is not modelled.
- `time.time()`: the timestamp is a parameter of each save.
- JSON encoding, `open`, `os.path.exists` and `os.remove` are an abstract file state. A failing `os.remove` is not modelled.
- CSV parsing (`splitlines`, `csv.reader` quoting) is not modelled: the model starts from the parsed rows, or from a parse failure.
- `print` output is not modelled. This includes the float `chunk_pause / 60` formatting and the skipped-user count printed in the `finally` block.
- InviterCore.Inviter.RunInvitation: `last_chunk` is a natural number. A negative value from a hand-edited checkpoint would make Python slice from the end, and that is not modelled. A checkpoint with missing keys (`progress.get` defaults) is not modelled either.
- InviterCore.Inviter.RunInvitation: an exception raised inside the batch loop is not modelled. Every per-username exception is caught by `_process_chunk`, and `save_progress` swallows its own.
- UsernameList.IsHeader: compares with ASCII lower-casing only. No non-ASCII character lower-cases to one of the letters of "username", so the test agrees with `str.lower`.
- InviterCore.Classify: the membership lookup's status is a string, compared with `"member"`, `"administrator"` and `"creator"` as at inviter_core.py:71. Pyrogram 2 returns a `ChatMemberStatus` enum (with `OWNER`, not `"creator"`). Against that library the string comparison never matches, so the listed-member skip is never taken and such names go on to the add. This is not modelled.
- InviterCore.GetChatInfo: the chat lookup is one oracle value. It says whether `get_chat`/`get_chat_member` raised (a `ValueError` or another exception), or what privileges the account has.
- `main.py` is modelled only as far as `Resume` needs. Its empty-list early exit, which removes the checkpoint, is not modelled.
- config.py's connection settings (API id, hash, session name, URLs) are not modelled.

## Findings

| source | as written | input that shows it | evidently intended | confidence | as-written member | corrected member |
|---|---|---|---|---|---|---|
| main.py:20-23, 43-48 with inviter_core.py:146-149 | the resume offset `last_chunk * chunk_size` is applied to a list from which the processed names were already removed | CSV rows alice, bob, carol, dave; batch size 2; run stopped after batch 1 (checkpoint: processed alice, bob; last_chunk 1). On resume the list is carol, dave, and offset 2 skips both: they are never invited | a resumed run attempts every name not yet processed (offset 0 on the filtered list, or the offset on the unfiltered list) | not executed | Resume.AttemptedAsWritten, Resume.ResumeSkipsUnattempted | Resume.AttemptedFixed |
