# download-rds-logs in Dafny

This project models `download-rds-logs.py`, a script that downloads every log file of one
RDS database instance into a local directory. The script works in three steps:

- It lists the instance's log files with `describe_db_log_files`. The call is retried with
  exponential backoff: after the k-th failure in a row it sleeps 2^k seconds, and it gives up
  after `--backoff` failures.
- It skips each listed file that fails the `--match` regular expression. It also skips a file
  whose basename already exists in the output directory with the listed size. A local file of
  another size is removed.
- It downloads each remaining file in portions with `download_db_log_file_portion`, following
  the service's `Marker`. Failed calls back off the same way; the failure counter restarts at 0
  after every answered call. A portion that ends with `"[Your log message was truncated]\n"` is
  discarded and re-requested with 10 fewer lines, as long as `lines > 0.1 * initial`. Every other
  portion is appended to the output file.

The service is replaced by its answers. A listing attempt answers `ListFailure` (the client
raised) or `Listed(files)`. A portion call answers `ChunkFailure` or
`Portion(data, marker, pending)`. `data` says whether the `LogFileData` key is missing, holds
`None`, or holds text. `marker` and `pending` are `None` when their key is absent.

Modules:

- `Remote` (remote.dfy): the answers, the truncation sentinel and the suffix test.
- `Backoff` (backoff.dfy): the 2^k schedule and the retry loop around the listing call.
- `Skip` (skip.dfy): `os.path.basename`, the local size lookup, the skip decision, and the
  remove-then-create of the destination.
- `Chunks` (chunks.dfy): the portion loop as a pure transition function `Next`, the whole loop
  `Run` over a finite sequence of answers, and the lemmas about `Run`.
- `Sessions` (session.dfy): the same loop as the script runs it. The `Session` class holds the
  loop variables `marker`, `lines`, `sleepcount`, `moreData`, `chunk` and the file content
  `output`, and updates them in place. `Step` and `Download` are proved against `Next` and
  `Run`.
- `Downloader` (downloader.dfy): the loop over the listing and the whole run.

Facts about the script that the model makes explicit:

- `lines` can fall below a tenth of the initial count. The script only requires
  `lines > initial/10` before each shrink of 10, so 105 initial lines reach 5
  (`Chunks.NoStrictTenthFloor`). What holds is `10 * lines > initial - 100` (`Chunks.RunLines`).
  The tenth is a floor when the initial count is a non-negative multiple of 100
  (`Chunks.RoundFloor`).
- With an initial count below 100, `lines` can reach 0 or less: 10, 20 and 90 reach 0, and 19
  and 89 reach -1, while 11 stops at 1 (`Chunks.SmallCountReachesZero` shows the case of 10).
  The script then sends `NumberOfLines` of 0 or below.
- A portion without a `LogFileData` key raises `KeyError` at line 159 (`del result['LogFileData']`).
  Only a portion whose `LogFileData` is `None` moves on without writing. The model ends the run
  with a `Crash` effect in the first case.
- Line 141 reads `result['AdditionalDataPending']` and `result['Marker']` unconditionally. A
  portion missing either key also raises `KeyError` (`Crash`), right after the failure counter
  is reset. So the fallback at lines 156-157 that keeps the old marker is never reached; the
  model keeps it anyway.
- The listing loop (lines 84-98) and the portion loop (lines 125-140) are two separate inline
  retry loops. The model keeps the two loops; they share `Backoff.Pow2` and `Backoff.Schedule`.

## Model

| member | source | states |
|---|---|---|
| `Backoff.ScheduleAt` | download-rds-logs.py:91-94 | The k-th sleep of a run of consecutive failures (k counted from 0) is exactly 2^k seconds. |
| `Backoff.ScheduleDoubles` | download-rds-logs.py:91-94 | Each sleep after the first in a run of failures is twice the previous one. |
| `Backoff.FirstFiveSleeps` | download-rds-logs.py:91-94 | The first five sleeps are 1, 2, 4, 8 and 16 seconds. |
| `Backoff.ListLogFiles` | download-rds-logs.py:83-98 | The listing loop returns the first successful listing when it comes before `backoff` failures. In that case `sleepcount` is the number of failures before it. Otherwise it reports exhaustion with `sleepcount == backoff` and every attempt failed. The sleeps are exactly `[2^0, ..., 2^(sleepcount-1)]`. With `backoff == 0` no call is made. |
| `Backoff.FirstListedIsFirst` | download-rds-logs.py:84-95 | If the j-th attempt is the first success and j < backoff, the loop ends with that attempt's listing. |
| `Backoff.FirstListedNone` | download-rds-logs.py:84-98 | If every attempt below the ceiling fails, the loop ends without a listing. |
| `Backoff.SucceedsAfterFailures` | download-rds-logs.py:84-98 | A listing that fails exactly n times and then succeeds is used when n < backoff. It is never reached when n >= backoff. |
| `Skip.BasenameIsLastComponent` | download-rds-logs.py:108 | The destination name is the last component of the remote name. It has no '/', it is a suffix of the name, and a '/' precedes it unless it is the whole name. |
| `Skip.BasenameOfPlainName` | download-rds-logs.py:108 | A name without '/' is its own destination name. |
| `Skip.Decide` | download-rds-logs.py:104-118 | A file is filtered exactly when a pattern is configured and does not match the name. It is downloaded exactly when it is not filtered and no local file of the listed size exists. Up to date means a local file of the listed size exists. Replace means a local file of another size exists. Fresh means no local file exists. |
| `Skip.Prepare` | download-rds-logs.py:116-121 | A download starts with an empty file at the destination, whether an old file was removed or none existed. Every other entry keeps its content, and no entry other than the destination is added. A skipped file leaves the directory unchanged. |
| `Skip.SameSizeIsSkipped` | download-rds-logs.py:110-114 | A local file with the listed size is skipped whatever its content. This includes a partial download whose length happens to equal `Size`. |
| `Chunks.RunSleeps` | download-rds-logs.py:124-140 | In the portion loop, each sleep is 2^k, where k is the number of failures in a row before it. At the end, `sleepcount` equals the failures since the last answered call, so any answered call resets it to 0. |
| `Chunks.RunOutput` | download-rds-logs.py:143-153 | The output file holds the data of the accepted answers, concatenated in answer order. Failed, shrunk and data-less answers add nothing. |
| `Chunks.RunMarker` | download-rds-logs.py:123-157 | A run without `KeyError` ends at the `Marker` of the last accepted answer. It keeps the marker it started from when no answer was accepted. |
| `Chunks.RunLines` | download-rds-logs.py:143-149 | `lines` only changes by shrinks of exactly 10, so it never increases. It keeps the floor `lines == initial || 10 * lines > initial - 100`. |
| `Chunks.RoundFloor` | download-rds-logs.py:102-149 | For an initial count that is a non-negative multiple of 100, a download never asks for fewer than a tenth of it (10 lines for 100). |
| `Chunks.NoStrictTenthFloor` | download-rds-logs.py:143-151 | From 105 lines, ten truncated portions bring `lines` to 5. At that floor the eleventh truncated portion is written as it is and the loop advances. |
| `Chunks.SmallCountReachesZero` | download-rds-logs.py:143-149 | From 10 initial lines one truncated portion brings `lines` to 0, and the loop goes on asking for 0 lines. |
| `Chunks.TruncatedSecondPortion` | download-rds-logs.py:143-151 | With 1000 initial lines, a truncated second portion makes the retry ask for 990 lines. The truncated text is not written and the marker is not advanced. |
| `Chunks.RunStops` | download-rds-logs.py:125-163 | The failure counter never passes the ceiling, and a `KeyError` is always the last effect. A run that leaves answers unused stopped because data was no longer pending, the counter reached `backoff`, or a `KeyError` occurred. |
| `Sessions.Session.constructor` | download-rds-logs.py:120-124 | Each file's download starts at marker "0", the configured line count, data pending, counter 0, chunk 0 and an empty file. |
| `Sessions.Session.Step` | download-rds-logs.py:126-160 | One iteration: see the notes below the table. |
| `Sessions.Session.Download` | download-rds-logs.py:125-161 | The loop leaves the session in `Run`'s final state and returns `Run`'s effects, keeping the session invariant. The durations slept are appended to `sleeps` in order. |
| `Sessions.DownloadFile` | download-rds-logs.py:120-163 | One file's `with open` block writes exactly `Run`'s output from the start state. It reports `TooManyErrors` when the counter reached `backoff` and `Complete` when no data is pending. The partial file is kept either way. |
| `Downloader.DownloadLogs` | download-rds-logs.py:83-163 | An exhausted listing processes no file and leaves the directory unchanged. Otherwise the listed files are processed in order, as `ProcessFrom` describes. |
| `Downloader.ProcessFiles` | download-rds-logs.py:99-163 | The loop over the listing gives `ProcessFrom`'s outcomes and directory. It goes on after a file that ran out of retries and stops after a `KeyError`. |
| `Downloader.HandleFile` | download-rds-logs.py:101-163 | One listed file: the skip decision, then, unless the file is skipped, a fresh download into its destination. |
| `Downloader.ProcessFrame` | download-rds-logs.py:99-163 | A directory entry that no remaining listed file maps to keeps its presence and its content. |
| `Downloader.SkipsRequestNothing` | download-rds-logs.py:104-118 | A skipped file issues no chunk request. The run is the same whatever the service would have answered for the skipped files. |
| `Downloader.FetchedContent` | download-rds-logs.py:116-163 | A downloaded file ends up holding exactly what a fresh download wrote: marker "0", the configured line count, an empty file at the start. Whatever was there before does not matter. |
| `Downloader.TwoPortions` | download-rds-logs.py:125-158 | Two portions, the second with `AdditionalDataPending` false, give a complete file holding both portions' data in order. |
| `Downloader.ThreeFiles` | download-rds-logs.py:99-163 | With three listed files, one failing the filter, one already present with its size and one fetched in two portions, only the third is written. It holds "abc" followed by "def". |

`Sessions.Session.Step`, one iteration of the portion loop:

- Its new state is `Next` of the old state.
- A failed call sleeps 2^sleepcount and increments `sleepcount`. Nothing else changes.
- Any answered call resets `sleepcount` to 0.
- A truncated portion shrinks `lines` when `10 * lines > initial`. Then `lines` drops by exactly 10, and nothing is written or advanced.
- An accepted portion appends its data and takes the answer's marker and pending flag. It also increments `chunk`.
- A missing key gives `KeyError`.
- It preserves the invariant: the counter is at most `backoff`, `lines` is at most the initial count and keeps its floor, and the sleeps since the last answered call are `Schedule(sleepcount)`.

## Left out

- Command-line parsing, the region list and the logging setup (lines 12-74) are left out, and so are all log messages. They carry no behaviour of the core.
- Creating the output directory and the boto3 client (lines 76-82) are left out. The two remote calls are replaced by their answers: `listCall(k)` for the k-th listing attempt, and `answers(j)` for the portion calls of the j-th listed file.
- `time.sleep` does not wait. The durations are recorded: returned by `Backoff.ListLogFiles`, and kept in the ghost fields `Session.sleeps` (all of them) and `Session.recent` (those since the last answered call).
- Floating point is not modelled. `math.pow(2, k)` is the natural number 2^k. `lines > args.lines * 0.1` is the integer test `10 * lines > initial`; the rounding of `0.1` is not modelled.
- `re.search` is an abstract parameter `search(pattern, name)`.
- `os.path.join` with the output directory is not modelled. The directory is a map from basename to content. For a name ending in '/' the basename is empty and the script's `destination` is the output directory itself: `os.stat` then reads the directory's size, and on a size mismatch `os.remove` on the directory raises. The model instead treats `""` as an ordinary file name and writes a file under that key.
- `os.stat`, `os.remove` and `open` act on that map, and a file's size is the length of its content.
- Data are Python 2 strings, so text is bytes. Under Python 3, writing `str` to a file opened "wb" would raise `TypeError`, and that is not modelled.
- `backoff` is a natural number. A negative `--backoff` leaves `response` unbound at line 99 and the script crashes there.
- `LogFile` assumes the listing's keys are present: `response['DescribeDBLogFiles']` (line 99), `log['LogFileName']` (line 101) and `log['Size']` (line 112, read only when the destination exists). A missing one raises `KeyError` in the script, and that is not modelled.
- `AdditionalDataPending` is a boolean when present. `Marker` is a string when present. A key present with value `None` is not modelled for these two.
- A `KeyError` (a missing `Marker`, `AdditionalDataPending` or `LogFileData` key) ends the whole run. The file being written keeps what it had.
- The portion loop need not terminate, because the service may keep reporting pending data. The model runs it on a finite sequence of answers. When the answers run out while the loop would continue, the file's status is `Unanswered` and the run stops there.
- Chunks.RunMarker: says nothing about the marker after a `KeyError`. The run ends there and the marker is never used again.
- `chunk` is only used in log messages. Its per-iteration update is stated by `Sessions.Session.Step`, with no lemma over whole runs.
