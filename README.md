# node-github-download, modelled in Dafny

`github-download` copies a GitHub repository, at a ref, into a local directory. A download
job walks the repository through the contents API. It lists a directory, creates each
subdirectory and lists it in turn, and creates each file and fetches its raw content. Two
closure counters decide when the walk is over:
- `pending` counts the items dispatched and not yet finished;
- `gonnaProcess` counts the listings requested and not yet processed.

When both reach 0, the job emits `end`. If a listing answers 403 (rate limited), the job
falls back to the repository archive. It removes every path it has written so far, announces
the archive URL, and, once the archive is unpacked, names the folder it unpacked to
(`extractZip`).

The model has one module per concern:

- `Strings` (`strings.dfy`): JavaScript's `split` with a one-character separator, and its
  inverse, `join`.
- `Paths` (`paths.dfy`): `path.join`, `path.resolve` and `path.basename` for POSIX paths.
- `Params` (`params.dfy`): the exported factory's reading of its first argument.
- `Urls` (`urls.dfy`): the contents, raw, archive URLs and the archive name.
- `Traversal` (`traversal.dfy`): the job as a value, `JobState`.
  - Each callback is one atomic step; `Apply` gives its effect and `Run` chains steps.
  - The invariant `Consistent` says the counters account exactly for the work in flight
    plus the slots that are never released.
  - The lemmas about `end` are proved from that invariant.
- `Downloader` (`job.dfy`): the job as an object, `Job`.
  - It has the source's fields, the two counters, and one method per callback.
  - Each method is proved to do exactly what the corresponding step function says.
  - `Deliver` runs any callback that is in flight and keeps the invariant.
- `Extract` (`extract_zip.dfy`): `extractZip`'s countdown, as a class `Extraction`.
  - The constructor is the `forEach` loop.
  - `WriteDone` is the write callback.
  - `RunToCompletion` plays every write callback in any order and any mix of failures.

Emitted events, issued I/O and work in flight are ghost state (the `ledger` of a `Job`). The
events are the ones the job emits through its `EventEmitter`. `Error` (capital E, an item
without a known type) is kept apart from `error`. A listing item's `type` is `dir`, `file`,
or any other text (such as `symlink`), which the model keeps as it was read.

### Behaviour as written

The model follows what the code does, including where that stops the job short of `end`:

- An item whose type is neither `dir` nor `file` is reported as `Error`, and its `pending`
  slot is never released (src/main.js:68-70). It holds that slot forever, so the job never
  emits `end`.
- A file whose raw fetch or write fails is reported as `error`, and its `pending` slot is
  never released (src/main.js:64-66). The job stalls the same way and never emits `end`.
- The mkdirs callback logs the directory and requests its listing whether or not `mkdirs`
  failed (src/main.js:41-49). A failure only adds an `error` report before the `dir` report.
- `checkDone` tests `this._getZip` inside a plain function call, so it reads the global
  object, not the job (src/main.js:75). The guard is modelled as absent: only the counters
  decide. A 403 listing keeps its `gonnaProcess` slot, so after the fallback the traversal
  still never emits `end` (`FallbackSuppressesEnd`).
- A non-200, non-403 listing is thrown and reported as `error` (src/main.js:114-120). Its
  `gonnaProcess` slot is never released either, so the job never emits `end`.
- After the fallback, file callbacks already in flight still run (src/main.js:55-62). They
  write and log their files after the removals of src/main.js:128-130, and those files are
  never removed.
- A ref that contains `/`, such as `a/b`, makes the archive path `<tmpdir>/<repo>-a/b.zip`
  (src/main.js:133-134), inside a directory that src/main.js:140 never creates
  (`SlashInRefNestsArchive`).

## Model

| member | source | states |
|---|---|---|
| Strings.Split | src/main.js:85 | `split` with a one-character separator yields at least one piece, and no piece contains the separator |
| Strings.JoinSplit | src/main.js:85 | joining the pieces of `split` with the separator gives back the string |
| Strings.SplitAround | src/main.js:87 | splitting a string around one separator splits the text on each side independently |
| Strings.SplitJoin | src/main.js:87 | splitting a join of separator-free pieces gives back the pieces |
| Paths.Resolve | src/extract-zip.js:22 | an absolute entry name is kept as it is; the result always ends with the entry name, and is absolute when the output directory is |
| Paths.ResolveIdempotent | src/extract-zip.js:22 | under an absolute output directory, resolving a resolved path again changes nothing |
| Paths.Basename | src/extract-zip.js:11 | the basename never contains a separator |
| Paths.BasenameIgnoresTrailingSlash | src/extract-zip.js:11 | a trailing separator does not change the basename |
| Paths.BasenameOfLastSegment | src/extract-zip.js:11 | the basename of `prefix/name` or `prefix/name/`, or of `name` alone, is `name` |
| Params.Resolve | src/main.js:83-93 | the factory fails exactly for a parameter that is neither a string nor an object, with the source's message; an object's fields pass through unchanged |
| Params.NoHashNoRef | src/main.js:85-87 | without `#` there is no ref, and the whole string, or its `vcsurl` rewrite, is the URL |
| Params.RefAfterHash | src/main.js:85-87 | the ref is the text between the first `#` and the next one or the end, and the URL is the text before the first `#` |
| Params.UserRepoAreLastSegments | src/main.js:87-88 | user and repo are the last two `/` segments of the URL text, whether a prefix ending in `/` comes before them or nothing does (`user/repo`) |
| Params.SingleSegmentHasNoUser | src/main.js:87-88 | a URL text without `/` gives an undefined user and the whole text as repo |
| Params.GithubUrlRoundTrip | src/main.js:84-88 | `https://github.com/<user>/<repo>#<ref>` reads back as user, repo and ref |
| Urls.ZipName | src/main.js:133-134 | the archive file name `<repo>-<ref>.zip` has no `/` when repo and ref have none |
| Urls.ZipFileInTmpdir | src/main.js:133-134 | the archive path is one file directly inside the temporary directory: its basename is the archive name |
| Urls.SlashInRefNestsArchive | src/main.js:133-134 | with the ref `a/b`, the archive path is `b.zip` inside `<tmpdir>/<repo>-a`, not a file directly in the temporary directory |
| Urls.ZipUrlSegments | src/main.js:136 | the archive URL's `/` segments are the archive host, then user, repo, `zip` and ref in place |
| Urls.ZipUrlIsJoin | src/main.js:136 | the archive URL is the scheme and host followed by user, repo, `zip` and ref joined by `/` |
| Urls.RawUrlSegments | src/main.js:24 | the raw URL's `/` segments are the raw host, then user, repo, ref and the item path's own segments |
| Urls.RawUrlIsJoin | src/main.js:24 | the raw URL is the scheme and host followed by user, repo, ref and path joined by `/` |
| Urls.ListingUrlQuery | src/main.js:22-23 | a listing URL with a ref splits at `?` into the contents URL of the path and `ref=<ref>` |
| Traversal.Started | src/main.js:25-29 | after `start` one listing is outstanding (the root's), nothing is pending, and the invariant holds |
| Traversal.TypeOf | src/main.js:39-50 | an item's type text is read as a directory exactly when it is `dir`, as a file exactly when it is `file`, and kept as unknown text otherwise; `HandleItem` and `IsMalformed` branch through it |
| Traversal.HandleItem | src/main.js:38-71 | `handleItem` leaves the counters and log alone; an item typed exactly `dir` adds its mkdirs, one typed exactly `file` its createFile; any other item adds an `Error` report and a slot never released |
| Traversal.HandleAll | src/main.js:34 | handling the items leaves log, flag, archive, counters and listings unchanged and only appends I/O |
| Traversal.HandleAllAccounts | src/main.js:34 | handling the items adds one operation per `dir`/`file` item, one stuck slot per other item, and no `end` |
| Traversal.HandleAllReports | src/main.js:68-70 | every item of unknown type is reported as `Error` |
| Traversal.Removals | src/main.js:128-130 | one removal per logged path, in log order |
| Traversal.DownloadZip | src/main.js:123-137 | `downloadZip` sets the one-way flag and is a no-op once set; the first time it removes every logged path without clearing the log, records the archive at `<tmpdir>/<repo>-<ref>.zip`, announces the archive URL and creates the temporary directory, and changes no counter |
| Traversal.ApplyPreservesConsistent | src/main.js:25-78 | every callback keeps the counters equal to the work in flight plus the slots never released, and never undoes a held slot, the fallback, or the log, events and I/O so far |
| Traversal.ProcessItemsCounts | src/main.js:31-36 | `processItems` adds the number of items to `pending`, takes 1 from `gonnaProcess`, and puts each item in flight or on hold |
| Traversal.CheckDoneEnds | src/main.js:73-78 | `checkDone` emits `end` exactly when both counters are 0, and changes nothing else |
| Traversal.ProcessItemsEnd | src/main.js:31-36 | `processItems` emits `end` exactly when nothing is pending, its listing was the last one outstanding, and it had no items; and at most once |
| Traversal.ProcessItemsReports | src/main.js:31-36 | `processItems` reports every item of unknown type |
| Traversal.ListingStepPreserves | src/main.js:107-120 | a listing reply (200, 403 or failure) keeps the invariant |
| Traversal.MkdirsStepPreserves | src/main.js:41-49 | the mkdirs callback keeps the invariant |
| Traversal.CreateFileStepPreserves | src/main.js:52-55 | the createFile callback keeps the invariant |
| Traversal.FileStepPreserves | src/main.js:55-66 | the end of the fetch chain, success or failure, keeps the invariant |
| Traversal.RunPreservesConsistent | src/main.js:25-78 | any sequence of callbacks keeps the invariant and never undoes a held slot or the fallback |
| Traversal.CountersZeroIffQuiescent | src/main.js:75 | under the invariant, both counters are 0 exactly when nothing is in flight and no slot is held |
| Traversal.EndAtMostOnce | src/main.js:73-77 | from a started job, `end` is emitted at most once, and only when nothing is in flight and no fallback happened |
| Traversal.ListingStepEndIfDone | src/main.js:107-120 | after a listing reply `end` is not overdue: a 200 ends exactly when both counters reach 0, a 403 or failure keeps a listing slot |
| Traversal.MkdirsStepEndIfDone | src/main.js:41-49 | the mkdirs callback counts a listing in, so it never leaves both counters at 0 |
| Traversal.CreateFileStepEndIfDone | src/main.js:52-55 | the createFile callback keeps its file in flight, so it never leaves both counters at 0 |
| Traversal.FileStepEndIfDone | src/main.js:55-66 | a written file ends with `checkDone`; a failed fetch or write keeps its slot |
| Traversal.ApplyKeepsEndIfDone | src/main.js:25-78 | no callback leaves both counters at 0 without `end` having been emitted |
| Traversal.RunKeepsEndIfDone | src/main.js:25-78 | no sequence of callbacks leaves both counters at 0 without `end` |
| Traversal.EndIffCountersZero | src/main.js:73-78 | from a started job and for any order of callbacks, `end` has been emitted exactly when both counters are 0 |
| Traversal.NoEndOnceStalled | src/main.js:64-66 | once a slot is held forever, no later callback emits `end` |
| Traversal.FallbackSuppressesEnd | src/main.js:111-113 | after the fallback to the archive the traversal never emits `end` |
| Traversal.StallingStepPreventsEnd | src/main.js:64-70 | a 403 or failed listing, an item of unknown type, or a failed fetch or write holds a slot forever, so `end` can never fire afterwards |
| Traversal.MalformedItemStalls | src/main.js:68-70 | an item of unknown type is reported and holds its `pending` slot forever |
| Traversal.ListingOkCounts | src/main.js:31-33 | a 200 listing counts its items in and itself out, and emits `end` exactly when that leaves both counters 0 |
| Traversal.RateLimitedKeepsSlot | src/main.js:111-113 | a 403 listing never reaches `processItems`: counters and log unchanged, its slot held, the fallback on, no `end` |
| Traversal.DirStepNeverEnds | src/main.js:41-49 | the mkdirs callback, failed or not, logs the directory, requests its listing, and reports `dir` after any `error`, with no `end` |
| Traversal.DownloadZipIdempotent | src/main.js:125 | falling back twice is falling back once |
| Downloader.Job.constructor | src/main.js:10-17 | a new job has the given user, repo and dir, the ref or `master` when the ref is falsy, an empty log and the flag off |
| Downloader.Job.Start | src/main.js:20-29 | `start` counts the root listing in and requests it with the ref as query; the job is consistent |
| Downloader.Job.CheckDone | src/main.js:73-78 | the method does what `Traversal.CheckDone` says: `end` exactly when both counters are 0 |
| Downloader.Job.HandleItem | src/main.js:38-71 | the method does what `Traversal.HandleItem` says |
| Downloader.Job.ProcessItems | src/main.js:31-36 | the counting and the `forEach` loop do what `Traversal.ProcessItems` says |
| Downloader.Job.RemoveLogged | src/main.js:128-130 | the loop issues one removal per logged path, in order, and changes nothing else |
| Downloader.Job.DownloadZip | src/main.js:123-137 | the method does what `Traversal.DownloadZip` says; the log is kept and the flag is set |
| Downloader.Job.OnListing | src/main.js:107-120 | the listing reply does what `Traversal.ListingStep` says |
| Downloader.Job.OnMkdirs | src/main.js:41-49 | the mkdirs callback does what `Traversal.MkdirsCounted` says, then `checkDone` |
| Downloader.Job.OnCreateFile | src/main.js:52-55 | the createFile callback does what `Traversal.CreateFileStep` says |
| Downloader.Job.OnFileDone | src/main.js:55-66 | the end of the fetch chain does what `Traversal.FileStep` says |
| Downloader.Job.Deliver | src/main.js:25-78 | running any callback in flight does what `Traversal.Apply` says and keeps the job consistent |
| Downloader.GithubDownload | src/main.js:83-100 | the factory fails exactly for an invalid parameter; otherwise it returns a started, consistent job whose dir is the given one or the working directory |
| Extract.FileWritesCount | src/extract-zip.js:19-24 | the loop issues exactly one write per file entry |
| Extract.FileWritesAreResolvedFiles | src/extract-zip.js:22-23 | every file entry is written at its name resolved under the output directory |
| Extract.WritesComeFromFiles | src/extract-zip.js:20-23 | every write is at a file entry's resolved name; directory entries produce none |
| Extract.RootEntryNamesFolder | src/extract-zip.js:11 | when the first entry is the root directory `<repo>-<ref>/`, the reported folder is `<repo>-<ref>` |
| Extract.Extraction.constructor | src/extract-zip.js:9-24 | after the loop, the folder is the first entry's basename, every file write is issued and in flight, directory entries are counted off, the countdown equals the number of file entries, and the callback has run exactly when it is 0 |
| Extract.Extraction.IssueEntry | src/extract-zip.js:19-24 | one turn of the `forEach` loop: a directory entry is counted off at once, a file entry adds its write at the resolved name and stays in flight |
| Extract.Extraction.CheckDone | src/extract-zip.js:13-17 | `checkDone` reports an error if given one, counts one off, and calls back exactly when the count reaches 0 |
| Extract.Extraction.WriteDone | src/extract-zip.js:23 | a write's callback counts its entry off whether or not the write failed; the callback runs when the last write is done |
| Extract.ExtractZip | src/extract-zip.js:6-11 | an empty archive fails on its first entry; otherwise extraction starts with every file write in flight |
| Extract.RunToCompletion | src/extract-zip.js:6-25 | whatever the order of the write callbacks and whichever fail, the callback runs exactly once with the first entry's basename, every file entry is written once, and every failure is reported |

## Left out

- HTTP: `fetch` and `res.text()` are not modelled. A listing's outcome is a parameter: 200 with its items, 403, or anything else. A file fetch-and-write's outcome is also a parameter.
- `JSON.parse` is not modelled. A listing body that does not parse, or that is not an array of items, counts as a failed listing.
- `fs-extra` and `fs/promises`: `mkdirs`, `createFile`, `writeFile`, `remove` and `mkdir` are recorded as effects with their paths. Their failures are booleans or outcomes passed to the callbacks.
- The fallback after `fs.mkdir` of the temporary directory is not modelled. That is the archive download, `extractZip`, `rename`, `remove` of the temporary directory and the fallback's own `end` (src/main.js:140-158). `extractZip` itself is modelled on its own.
- `generateTempDir`, with its clock and random number, is not modelled. Its result is a parameter of the 403 step.
- `EventEmitter` is not modelled. Emitting `error` with no listener throws in Node, and the model does not capture that throw.
- The `vcsurl` library is not modelled. Its result for the text before `#` is a parameter.
- `AdmZip` is not modelled. An archive is its list of entries (name, directory flag), and entry data is not read.
- Paths.Resolve: Node puts the working directory in front of a relative output directory; the model does not. The only output directory is the temporary directory, which is absolute (src/main.js:147, 162).
- `path` normalisation is not modelled. `..`, `.` and repeated separators are kept as written, in `Paths.Join`, `Paths.Resolve` and `Paths.Basename`.
- Interleaving of callbacks: each callback runs atomically. A schedule is any sequence of callbacks for work in flight (`Traversal.Run`, `Downloader.Job.Deliver`).
- Downloader.Job.Start: requires a fresh job, so calling `start` twice on one job is not modelled.
- Params.Resolve: a `null` parameter is `typeof 'object'` and would throw on its first field read. It is modelled as `Other`, which rejects it with the factory's own message.
- Extract.Extraction.constructor: requires a non-empty archive. The empty case is handled by `Extract.ExtractZip`, which returns the error that reading the first entry throws.
