/**
 * The progress file of utils.py (load_progress, save_progress) and its
 * removal at the end of a run. The file is an abstract state: JSON encoding,
 * `open` and `os` calls are not modelled, only what a later load can see.
 */
module ProgressStore {
  import opened Seqs

  /** The JSON object save_progress writes; `timestamp` is absent from the default. */
  datatype Progress = Progress(
    processed: seq<string>,
    skipped: seq<string>,
    currentDelay: int,
    lastChunk: int,
    timestamp: Option<int>)

  /**
   * What the file at `progress_file` holds: nothing, text that does not
   * decode as JSON, a file that exists but cannot be opened or read, or a
   * decoded record.
   */
  datatype FileState = Absent | Undecodable | Unreadable | Stored(record: Progress)

  /**
   * How one `open(..., 'w')` + `json.dump` attempt ends: everything written;
   * `open` itself failed (the old file is untouched); or the write broke off
   * after `open` had truncated the file (what remains does not decode).
   */
  datatype WriteOutcome = Written | OpenFailed | InterruptedWrite

  /** The record load_progress falls back to. */
  function DefaultProgress(initialDelay: int): Progress
  {
    Progress([], [], initialDelay, 0, None)
  }

  /**
   * load_progress: the stored record, or the default for a missing,
   * undecodable or unreadable file. It never fails.
   */
  function LoadProgress(file: FileState, initialDelay: int): (p: Progress)
    ensures file.Stored? ==> p == file.record
    ensures !file.Stored? ==>
      p.processed == [] && p.skipped == [] && p.currentDelay == initialDelay &&
      p.lastChunk == 0 && p.timestamp.None?
  {
    match file
    case Stored(record) => record
    case _ => DefaultProgress(initialDelay)
  }

  /**
   * save_progress: overwrites the file with the four fields and a timestamp
   * `now`; a failed write is swallowed, so the result is always a file state,
   * never an error.
   */
  function SaveProgress(file: FileState, processed: seq<string>, skipped: seq<string>,
                        delay: int, lastChunk: int, now: int, outcome: WriteOutcome): (file': FileState)
    ensures outcome.Written? ==>
      forall d :: LoadProgress(file', d) == Progress(processed, skipped, delay, lastChunk, Some(now))
    ensures outcome.OpenFailed? ==> file' == file
    ensures outcome.InterruptedWrite? ==> forall d :: LoadProgress(file', d) == DefaultProgress(d)
  {
    match outcome
    case Written => Stored(Progress(processed, skipped, delay, lastChunk, Some(now)))
    case OpenFailed => file
    case InterruptedWrite => Undecodable
  }

  /** `if os.path.exists(f): os.remove(f)`: afterwards a load starts over. */
  function RemoveProgress(file: FileState): (file': FileState)
    ensures forall d :: LoadProgress(file', d) == DefaultProgress(d)
  {
    Absent
  }
}
