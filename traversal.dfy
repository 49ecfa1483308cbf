/**
 * The completion bookkeeping of `GithubDownloader.prototype.start` (src/main.js:20-81) and the
 * fallback guard of `downloadZip` (src/main.js:123-137), as a pure step semantics.
 *
 * Node runs one callback at a time, so every callback is one atomic `Step` applied to a
 * `JobState`. Besides the source's own state (`_log`, `_getZip`, the closure counters
 * `pending` and `gonnaProcess`), a `JobState` records what is in flight: listing requests not
 * yet answered, item operations not yet called back, and the slots the source never releases.
 * Emitted events and issued I/O are appended to `events` and `effects`.
 */
module Traversal {
  import opened Wrappers
  import opened Params
  import Urls
  import Paths

  /** What `handleItem` makes of an entry's `type`: a directory, a file, or any other text. */
  datatype ItemType = Dir | File | Unknown(name: string)

  /**
   * How `handleItem` tells the types apart (`===` against `'dir'`, then `'file'`): only those two
   * exact texts are known, and any other text (such as `symlink`) is kept as it was read.
   */
  function TypeOf(t: string): (k: ItemType)
    ensures k == Dir <==> t == "dir"
    ensures k == File <==> t == "file"
    ensures k.Unknown? <==> t != "dir" && t != "file"
    ensures k.Unknown? ==> k.name == t
  {
    if t == "dir" then Dir else if t == "file" then File else Unknown(t)
  }

  /** An entry of a contents listing: `item.path` and the text of `item.type`. */
  datatype Item = Item(path: string, kind: string)

  /** An item operation whose callback has not run yet. */
  datatype Op =
    | MakingDir(item: Item)     // fs.mkdirs issued
    | CreatingFile(item: Item)  // fs.createFile issued
    | FetchingFile(item: Item)  // raw fetch (and then writeFile) issued

  /** What the job emits. `UntypedItemError` is the error for an item without a known type, emitted as 'Error'. */
  datatype Event =
    | DirEvent(path: string)
    | FileEvent(path: string)
    | ErrorEvent
    | UntypedItemError(item: Item)
    | ZipEvent(url: string)
    | EndEvent

  /** The I/O the job issues, in order. */
  datatype Effect =
    | Get(url: string)
    | Mkdirs(path: string)
    | CreateFile(path: string)
    | WriteFile(path: string)
    | Remove(path: string)
    | Mkdir(path: string)

  /** How a listing request ends: 200 with its items, 403, or anything else (a thrown error). */
  datatype Listing = Ok(items: seq<Item>) | RateLimited | Failed

  /** How the raw fetch of a file and the write of its body end. */
  datatype FileOutcome = Written | FetchRejected | WriteRejected

  /** One callback of the event loop. `tmpdir` is what `generateTempDir` returns if it is called. */
  datatype Step =
    | ListingDone(path: string, listing: Listing, tmpdir: string)
    | MkdirsDone(item: Item, failed: bool)
    | CreateFileDone(item: Item, failed: bool)
    | FileDone(item: Item, outcome: FileOutcome)

  /** The fallback's archive session: temporary directory, archive file and archive URL. */
  datatype Archive = Archive(tmpdir: string, zipFile: string, url: string)

  /** The job's fixed attributes; `ref` already defaulted by the constructor. */
  datatype Config = Config(user: Option<string>, repo: Option<string>, ref: string, dir: string)
  {
    function ListingUrl(path: string): string
    {
      Urls.ListingUrl(Display(user), Display(repo), ref, path)
    }

    function RawUrl(path: string): string
    {
      Urls.RawUrl(Display(user), Display(repo), ref, path)
    }

    function ZipUrl(): string
    {
      Urls.ZipUrl(Display(user), Display(repo), ref)
    }

    function ZipFile(tmpdir: string): string
    {
      Paths.Join(tmpdir, Urls.ZipName(Display(repo), ref))
    }

    function LocalPath(path: string): string
    {
      Paths.Join(dir, path)
    }
  }

  datatype JobState = JobState(
    log: seq<string>,
    getZip: bool,
    pending: int,
    gonnaProcess: int,
    listings: multiset<string>,  // listing requests in flight, by path
    ops: multiset<Op>,           // item operations in flight
    stuck: nat,                  // pending slots that are never released
    blocked: nat,                // gonnaProcess slots that are never released
    archive: Option<Archive>,
    events: seq<Event>,
    effects: seq<Effect>)

  /** The counters account exactly for the work in flight and the slots never released. */
  predicate Consistent(s: JobState)
  {
    && s.pending == |s.ops| + s.stuck
    && s.gonnaProcess == |s.listings| + s.blocked
    && (s.getZip <==> s.archive.Some?)
    && (s.getZip ==> s.blocked > 0)
    && multiset(s.events)[EndEvent] <= 1
    && (EndEvent in s.events ==> Quiescent(s))
  }

  /** Nothing in flight and no slot held. */
  predicate Quiescent(s: JobState)
  {
    s.ops == multiset{} && s.listings == multiset{} && s.stuck == 0 && s.blocked == 0
  }

  /** A new job (src/main.js:10-17) with its closure counters at 0 (src/main.js:25-26). */
  function Initial(): JobState
  {
    JobState([], false, 0, 0, multiset{}, multiset{}, 0, 0, None, [], [])
  }

  /** `start`: one listing outstanding, the root's, requested (src/main.js:28-29). */
  function Started(cfg: Config): (s: JobState)
    ensures Consistent(s) && s.gonnaProcess == 1 && s.pending == 0
    ensures s.listings == multiset{""} && !s.getZip && s.log == []
  {
    Initial().(gonnaProcess := 1, listings := multiset{""}, effects := [Get(cfg.ListingUrl(""))])
  }

  /** `checkDone` as written: the counters alone decide; the job's `_getZip` is not read. */
  function CheckDone(s: JobState): JobState
  {
    if s.pending == 0 && s.gonnaProcess == 0 then s.(events := s.events + [EndEvent]) else s
  }

  /** An item whose type is neither `dir` nor `file`. */
  predicate IsMalformed(item: Item)
  {
    TypeOf(item.kind).Unknown?
  }

  /** The synchronous part of `handleItem`: issue mkdirs or createFile, or report the type. */
  function HandleItem(cfg: Config, s: JobState, item: Item): (r: JobState)
    ensures r.log == s.log && r.getZip == s.getZip && r.archive == s.archive
    ensures r.pending == s.pending && r.gonnaProcess == s.gonnaProcess
    ensures r.listings == s.listings && r.blocked == s.blocked
    ensures s.effects <= r.effects
    ensures IsMalformed(item) ==> r.ops == s.ops && r.stuck == s.stuck + 1 && r.events == s.events + [UntypedItemError(item)]
    ensures !IsMalformed(item) ==> s.ops <= r.ops && |r.ops| == |s.ops| + 1 && r.stuck == s.stuck && r.events == s.events
    ensures item.kind == "dir" ==> r.ops == s.ops + multiset{MakingDir(item)}
    ensures item.kind == "file" ==> r.ops == s.ops + multiset{CreatingFile(item)}
  {
    var itemType := TypeOf(item.kind);
    if itemType == Dir then
      s.(ops := s.ops + multiset{MakingDir(item)}, effects := s.effects + [Mkdirs(cfg.LocalPath(item.path))])
    else if itemType == File then
      s.(ops := s.ops + multiset{CreatingFile(item)}, effects := s.effects + [CreateFile(cfg.LocalPath(item.path))])
    else
      s.(events := s.events + [UntypedItemError(item)], stuck := s.stuck + 1)
  }

  /** The number of items whose type is neither `dir` nor `file`. */
  function Malformed(items: seq<Item>): (n: nat)
    ensures n <= |items|
  {
    if items == [] then 0
    else Malformed(items[..|items| - 1]) + (if IsMalformed(items[|items| - 1]) then 1 else 0)
  }

  /** `items.forEach(handleItem)`. */
  function HandleAll(cfg: Config, s: JobState, items: seq<Item>): (r: JobState)
    ensures r.log == s.log && r.getZip == s.getZip && r.archive == s.archive
    ensures r.pending == s.pending && r.gonnaProcess == s.gonnaProcess
    ensures r.listings == s.listings && r.blocked == s.blocked
    ensures s.effects <= r.effects
  {
    if items == [] then s
    else HandleItem(cfg, HandleAll(cfg, s, items[..|items| - 1]), items[|items| - 1])
  }

  /** Handling one more item of the listing. */
  lemma HandleAllStep(cfg: Config, s: JobState, items: seq<Item>, i: nat)
    requires i < |items|
    ensures HandleAll(cfg, s, items[..i + 1]) == HandleItem(cfg, HandleAll(cfg, s, items[..i]), items[i])
  {
    assert items[..i + 1][..i] == items[..i];
  }

  /**
   * Handling the items adds one operation in flight per `dir` or `file` item, and one stuck
   * slot per item of any other type; it never emits `end`.
   */
  lemma {:induction false} HandleAllAccounts(cfg: Config, s: JobState, items: seq<Item>)
    ensures var r := HandleAll(cfg, s, items);
      && s.ops <= r.ops && |r.ops| == |s.ops| + |items| - Malformed(items)
      && r.stuck == s.stuck + Malformed(items)
      && s.events <= r.events && (EndEvent in r.events <==> EndEvent in s.events)
  {
    if items != [] {
      var init := items[..|items| - 1];
      HandleAllAccounts(cfg, s, init);
    }
  }

  /**
   * The events part of `HandleAllAccounts` alone: reports are appended, and never `end`.
   * Kept separate so that proofs needing only the events do not carry the whole accounting.
   */
  lemma {:induction false} HandleAllEvents(cfg: Config, s: JobState, items: seq<Item>)
    ensures var r := HandleAll(cfg, s, items);
      s.events <= r.events && (EndEvent in r.events <==> EndEvent in s.events)
  {
    if items != [] {
      HandleAllEvents(cfg, s, items[..|items| - 1]);
    }
  }

  /** Handling the items reports, as 'Error', every item that is neither `dir` nor `file`. */
  lemma {:induction false} HandleAllReports(cfg: Config, s: JobState, items: seq<Item>, i: nat)
    requires i < |items| && IsMalformed(items[i])
    ensures UntypedItemError(items[i]) in HandleAll(cfg, s, items).events
  {
    var init := items[..|items| - 1];
    var m := HandleAll(cfg, s, init);
    if i < |items| - 1 {
      assert init[i] == items[i];
      HandleAllReports(cfg, s, init, i);
      HandleAllAccounts(cfg, m, [items[|items| - 1]]);
      assert HandleItem(cfg, m, items[|items| - 1]).events == HandleAll(cfg, s, items).events;
    }
  }

  /** The counting that opens `processItems`: `n` items in, one listing out. */
  function Counted(s: JobState, n: nat): JobState
  {
    s.(pending := s.pending + n, gonnaProcess := s.gonnaProcess - 1)
  }

  /** `processItems`: count the items in, count the listing out, handle them, check. */
  function ProcessItems(cfg: Config, s: JobState, items: seq<Item>): JobState
  {
    CheckDone(HandleAll(cfg, Counted(s, |items|), items))
  }

  /** `fs.remove` of every logged path, in log order. */
  function Removals(log: seq<string>): (r: seq<Effect>)
    ensures |r| == |log|
    ensures forall i :: 0 <= i < |log| ==> r[i] == Remove(log[i])
  {
    if log == [] then [] else Removals(log[..|log| - 1]) + [Remove(log[|log| - 1])]
  }

  /** `downloadZip` up to the `fs.mkdir` of the temporary directory. */
  function DownloadZip(cfg: Config, s: JobState, tmpdir: string): (r: JobState)
    ensures r.getZip
    ensures s.getZip ==> r == s
    ensures r.log == s.log && r.pending == s.pending && r.gonnaProcess == s.gonnaProcess
    ensures r.listings == s.listings && r.ops == s.ops && r.stuck == s.stuck && r.blocked == s.blocked
    ensures !s.getZip ==> r.archive == Some(Archive(tmpdir, cfg.ZipFile(tmpdir), cfg.ZipUrl()))
    ensures !s.getZip ==> r.events == s.events + [ZipEvent(cfg.ZipUrl())]
    ensures s.effects <= r.effects
    ensures !s.getZip ==> |r.effects| == |s.effects| + |s.log| + 1
    ensures !s.getZip ==> forall i :: 0 <= i < |s.log| ==> r.effects[|s.effects| + i] == Remove(s.log[i])
    ensures !s.getZip ==> r.effects[|r.effects| - 1] == Mkdir(tmpdir)
  {
    if s.getZip then s
    else
      s.(getZip := true,
         effects := s.effects + Removals(s.log) + [Mkdir(tmpdir)],
         archive := Some(Archive(tmpdir, cfg.ZipFile(tmpdir), cfg.ZipUrl())),
         events := s.events + [ZipEvent(cfg.ZipUrl())])
  }

  /** A callback can only run for work that is in flight. */
  predicate Enabled(s: JobState, step: Step)
  {
    match step
    case ListingDone(path, _, _) => path in s.listings
    case MkdirsDone(item, _) => MakingDir(item) in s.ops
    case CreateFileDone(item, _) => CreatingFile(item) in s.ops
    case FileDone(item, _) => FetchingFile(item) in s.ops
  }

  /** The listing request for `path` is answered: no longer in flight. */
  function Answered(s: JobState, path: string): JobState
  {
    s.(listings := s.listings - multiset{path})
  }

  /** A `gonnaProcess` slot that is never released. */
  function Blocked(s: JobState): JobState
  {
    s.(blocked := s.blocked + 1)
  }

  /** requestJSON's `then` (src/main.js:108-119): a 200 is processed, a 403 falls back, anything else reports. */
  function ListingStep(cfg: Config, s: JobState, path: string, listing: Listing, tmpdir: string): JobState
  {
    var s1 := Answered(s, path);
    match listing
    case Ok(items) => ProcessItems(cfg, s1, items)
    case RateLimited => DownloadZip(cfg, Blocked(s1), tmpdir)
    case Failed => Blocked(s1).(events := s1.events + [ErrorEvent])
  }

  /** The fs.mkdirs callback (src/main.js:41-49), up to its `checkDone`. */
  function MkdirsCounted(cfg: Config, s: JobState, item: Item, failed: bool): JobState
  {
    s.(ops := s.ops - multiset{MakingDir(item)},
       log := s.log + [cfg.LocalPath(item.path)],
       gonnaProcess := s.gonnaProcess + 1,
       listings := s.listings + multiset{item.path},
       effects := s.effects + [Get(cfg.ListingUrl(item.path))],
       events := s.events + (if failed then [ErrorEvent] else []) + [DirEvent(item.path)],
       pending := s.pending - 1)
  }

  /** The fs.createFile callback (src/main.js:52-55). */
  function CreateFileStep(cfg: Config, s: JobState, item: Item, failed: bool): JobState
  {
    s.(ops := s.ops - multiset{CreatingFile(item)} + multiset{FetchingFile(item)},
       events := s.events + (if failed then [ErrorEvent] else []),
       effects := s.effects + [Get(cfg.RawUrl(item.path))])
  }

  /** The fetch chain for `item` has settled: no longer in flight. */
  function Fetched(s: JobState, item: Item): JobState
  {
    s.(ops := s.ops - multiset{FetchingFile(item)})
  }

  /** The file was written: log it, report it, count it out (src/main.js:57-61), up to `checkDone`. */
  function WroteFile(cfg: Config, s: JobState, item: Item): JobState
  {
    var file := cfg.LocalPath(item.path);
    var s1 := Fetched(s, item);
    s1.(effects := s1.effects + [WriteFile(file)], log := s1.log + [file],
        events := s1.events + [FileEvent(item.path)], pending := s1.pending - 1)
  }

  /** The fetch chain's `then` or `catch` (src/main.js:56-66). */
  function FileStep(cfg: Config, s: JobState, item: Item, outcome: FileOutcome): JobState
  {
    var file := cfg.LocalPath(item.path);
    var s1 := Fetched(s, item);
    match outcome
    case Written => CheckDone(WroteFile(cfg, s, item))
    case FetchRejected => s1.(events := s1.events + [ErrorEvent], stuck := s1.stuck + 1)
    case WriteRejected =>
      s1.(effects := s1.effects + [WriteFile(file)], events := s1.events + [ErrorEvent], stuck := s1.stuck + 1)
  }

  /** The effect of one callback; a step for work not in flight changes nothing. */
  function Apply(cfg: Config, s: JobState, step: Step): JobState
  {
    if !Enabled(s, step) then s
    else match step
      case ListingDone(path, listing, tmpdir) => ListingStep(cfg, s, path, listing, tmpdir)
      case MkdirsDone(item, failed) => CheckDone(MkdirsCounted(cfg, s, item, failed))
      case CreateFileDone(item, failed) => CreateFileStep(cfg, s, item, failed)
      case FileDone(item, outcome) => FileStep(cfg, s, item, outcome)
  }

  /** The callbacks run one after another. */
  function Run(cfg: Config, s: JobState, steps: seq<Step>): JobState
    decreases |steps|
  {
    if steps == [] then s else Run(cfg, Apply(cfg, s, steps[0]), steps[1..])
  }

  /** What no callback undoes: held slots, the fallback, and the log, events and effects so far. */
  predicate Keeps(s: JobState, r: JobState)
  {
    && r.stuck >= s.stuck && r.blocked >= s.blocked
    && (s.getZip ==> r.getZip && r.archive == s.archive)
    && s.log <= r.log && s.events <= r.events && s.effects <= r.effects
  }

  /** A step for work in flight keeps the counters accounting for it, and keeps what is never undone. */
  lemma ApplyPreservesConsistent(cfg: Config, s: JobState, step: Step)
    requires Consistent(s)
    ensures Consistent(Apply(cfg, s, step)) && Keeps(s, Apply(cfg, s, step))
  {
    if Enabled(s, step) {
      match step
      case ListingDone(path, listing, tmpdir) =>
        assert Apply(cfg, s, step) == ListingStep(cfg, s, path, listing, tmpdir);
        ListingStepPreserves(cfg, s, path, listing, tmpdir);
      case MkdirsDone(item, failed) =>
        assert Apply(cfg, s, step) == CheckDone(MkdirsCounted(cfg, s, item, failed));
        MkdirsStepPreserves(cfg, s, item, failed);
      case CreateFileDone(item, failed) =>
        assert Apply(cfg, s, step) == CreateFileStep(cfg, s, item, failed);
        CreateFileStepPreserves(cfg, s, item, failed);
      case FileDone(item, outcome) =>
        assert Apply(cfg, s, step) == FileStep(cfg, s, item, outcome);
        FileStepPreserves(cfg, s, item, outcome);
    }
  }

  /** The invariant part of `ApplyPreservesConsistent` alone, for callers that need nothing else. */
  lemma StepKeepsConsistent(cfg: Config, s: JobState, step: Step)
    requires Consistent(s)
    ensures Consistent(Apply(cfg, s, step))
  {
    ApplyPreservesConsistent(cfg, s, step);
  }

  /** The listing callback on a 200 is `processItems` once the request is no longer in flight. */
  lemma ApplyListingOk(cfg: Config, s: JobState, path: string, items: seq<Item>, tmpdir: string)
    requires path in s.listings
    ensures Apply(cfg, s, ListingDone(path, Ok(items), tmpdir))
         == ProcessItems(cfg, Answered(s, path), items)
  {
  }

  /** What `processItems` does to the counters and the work in flight. */
  lemma ProcessItemsCounts(cfg: Config, s: JobState, items: seq<Item>)
    ensures var r := ProcessItems(cfg, s, items);
      && r.log == s.log && r.getZip == s.getZip && r.archive == s.archive
      && r.listings == s.listings && r.blocked == s.blocked
      && r.pending == s.pending + |items| && r.gonnaProcess == s.gonnaProcess - 1
      && s.ops <= r.ops && |r.ops| == |s.ops| + |items| - Malformed(items)
      && r.stuck == s.stuck + Malformed(items)
      && s.effects <= r.effects
  {
    HandleAllAccounts(cfg, Counted(s, |items|), items);
  }

  /** Taking out one element that is there. */
  lemma RemoveOne<T>(m: multiset<T>, x: T)
    requires x in m
    ensures |m - multiset{x}| == |m| - 1
  {
    assert m == (m - multiset{x}) + multiset{x};
  }

  lemma PrefixTransitive<T>(a: seq<T>, b: seq<T>, c: seq<T>)
    requires a <= b && b <= c
    ensures a <= c
  {
  }

  /** Appending `end` to events without one makes it occur exactly once. */
  lemma EndOnce(events: seq<Event>)
    requires EndEvent !in events
    ensures multiset(events)[EndEvent] == 0 && multiset(events + [EndEvent])[EndEvent] == 1
  {
    assert multiset(events + [EndEvent]) == multiset(events) + multiset{EndEvent};
  }

  /** `checkDone` appends `end` exactly when both counters are 0, and changes nothing else. */
  lemma CheckDoneEnds(h: JobState)
    requires EndEvent !in h.events
    ensures var r := CheckDone(h);
      && h.events <= r.events
      && r == h.(events := r.events)
      && (EndEvent in r.events <==> h.pending == 0 && h.gonnaProcess == 0)
      && multiset(r.events)[EndEvent] <= 1
  {
    EndOnce(h.events);
  }

  /**
   * The events part of `CheckDoneEnds` alone, with the prefix and the count of `end`; kept
   * separate so that proofs about events do not carry the rest of the state.
   */
  lemma CheckDoneEvents(h: JobState)
    requires EndEvent !in h.events
    ensures var r := CheckDone(h).events;
      && h.events <= r
      && (EndEvent in r <==> h.pending == 0 && h.gonnaProcess == 0)
      && multiset(r)[EndEvent] <= 1
  {
    EndOnce(h.events);
  }

  lemma ProcessItemsEnd(cfg: Config, s: JobState, items: seq<Item>)
    requires EndEvent !in s.events
    ensures var r := ProcessItems(cfg, s, items);
      && s.events <= r.events
      && (EndEvent in r.events <==> s.pending + |items| == 0 && s.gonnaProcess == 1)
      && multiset(r.events)[EndEvent] <= 1
  {
    var s2 := Counted(s, |items|);
    var h := HandleAll(cfg, s2, items);
    assert ProcessItems(cfg, s, items) == CheckDone(h);
    HandleAllEvents(cfg, s2, items);
    CheckDoneEvents(h);
    PrefixTransitive(s.events, h.events, CheckDone(h).events);
  }

  /** `processItems` reports every item that is neither `dir` nor `file`. */
  lemma ProcessItemsReports(cfg: Config, s: JobState, items: seq<Item>, i: nat)
    requires i < |items| && IsMalformed(items[i])
    ensures UntypedItemError(items[i]) in ProcessItems(cfg, s, items).events
  {
    var s2 := Counted(s, |items|);
    HandleAllReports(cfg, s2, items, i);
    var h := HandleAll(cfg, s2, items);
    assert h.events <= CheckDone(h).events;
  }

  lemma ListingStepPreserves(cfg: Config, s: JobState, path: string, listing: Listing, tmpdir: string)
    requires Consistent(s) && path in s.listings
    ensures Consistent(ListingStep(cfg, s, path, listing, tmpdir))
    ensures Keeps(s, ListingStep(cfg, s, path, listing, tmpdir))
  {
    assert EndEvent !in s.events;
    var s1 := Answered(s, path);
    RemoveOne(s.listings, path);
    if listing.Ok? {
      ProcessItemsCounts(cfg, s1, listing.items);
      ProcessItemsEnd(cfg, s1, listing.items);
    }
  }

  lemma MkdirsStepPreserves(cfg: Config, s: JobState, item: Item, failed: bool)
    requires Consistent(s) && MakingDir(item) in s.ops
    ensures Consistent(CheckDone(MkdirsCounted(cfg, s, item, failed)))
    ensures Keeps(s, CheckDone(MkdirsCounted(cfg, s, item, failed)))
  {
    var c := MkdirsCounted(cfg, s, item, failed);
    assert c.gonnaProcess > 0;
    assert CheckDone(c) == c;
    assert EndEvent !in s.events;
    assert EndEvent !in c.events;
    RemoveOne(s.ops, MakingDir(item));
    assert |c.listings| == |s.listings| + 1;
  }

  lemma CreateFileStepPreserves(cfg: Config, s: JobState, item: Item, failed: bool)
    requires Consistent(s) && CreatingFile(item) in s.ops
    ensures Consistent(CreateFileStep(cfg, s, item, failed))
    ensures Keeps(s, CreateFileStep(cfg, s, item, failed))
  {
    var r := CreateFileStep(cfg, s, item, failed);
    assert EndEvent !in s.events;
    assert EndEvent !in r.events;
    RemoveOne(s.ops, CreatingFile(item));
    assert |r.ops| == |s.ops|;
  }

  /** `checkDone` on a consistent state that has not ended keeps it consistent. */
  lemma CheckDonePreserves(h: JobState)
    requires Consistent(h) && EndEvent !in h.events
    ensures Consistent(CheckDone(h)) && Keeps(h, CheckDone(h))
  {
    EndOnce(h.events);
  }

  lemma KeepsTransitive(a: JobState, b: JobState, c: JobState)
    requires Keeps(a, b) && Keeps(b, c)
    ensures Keeps(a, c)
  {
  }

  lemma FileWrittenPreserves(cfg: Config, s: JobState, item: Item)
    requires Consistent(s) && FetchingFile(item) in s.ops
    ensures Consistent(FileStep(cfg, s, item, Written)) && Keeps(s, FileStep(cfg, s, item, Written))
  {
    var h := WroteFile(cfg, s, item);
    assert EndEvent !in h.events && Consistent(h) && Keeps(s, h) by {
      RemoveOne(s.ops, FetchingFile(item));
      assert EndEvent !in s.events;
      EndOnce(h.events);
    }
    CheckDonePreserves(h);
    KeepsTransitive(s, h, CheckDone(h));
  }

  lemma FileStepPreserves(cfg: Config, s: JobState, item: Item, outcome: FileOutcome)
    requires Consistent(s) && FetchingFile(item) in s.ops
    ensures Consistent(FileStep(cfg, s, item, outcome))
    ensures Keeps(s, FileStep(cfg, s, item, outcome))
  {
    if outcome.Written? {
      FileWrittenPreserves(cfg, s, item);
    } else {
      var r := FileStep(cfg, s, item, outcome);
      RemoveOne(s.ops, FetchingFile(item));
      assert EndEvent !in s.events;
      assert EndEvent !in r.events;
    }
  }

  /** Any sequence of callbacks keeps the counters consistent: `end` fires at most once, and only when all is done. */
  lemma {:induction false} RunPreservesConsistent(cfg: Config, s: JobState, steps: seq<Step>)
    requires Consistent(s)
    ensures Consistent(Run(cfg, s, steps)) && Keeps(s, Run(cfg, s, steps))
    decreases |steps|
  {
    if steps != [] {
      ApplyPreservesConsistent(cfg, s, steps[0]);
      RunPreservesConsistent(cfg, Apply(cfg, s, steps[0]), steps[1..]);
    }
  }

  /** Under the invariant, `checkDone`'s test holds exactly when nothing is in flight and no slot is held. */
  lemma CountersZeroIffQuiescent(s: JobState)
    requires Consistent(s)
    ensures s.pending == 0 && s.gonnaProcess == 0 <==> Quiescent(s)
  {
  }

  /** From a started job, `end` is emitted at most once, and once emitted nothing remains to be done. */
  lemma EndAtMostOnce(cfg: Config, steps: seq<Step>)
    ensures var r := Run(cfg, Started(cfg), steps);
      multiset(r.events)[EndEvent] <= 1 && (EndEvent in r.events ==> Quiescent(r) && !r.getZip)
  {
    RunPreservesConsistent(cfg, Started(cfg), steps);
  }

  /** `end` is not overdue: whenever both counters are 0, it has been emitted. */
  predicate EndIfDone(s: JobState)
  {
    s.pending == 0 && s.gonnaProcess == 0 ==> EndEvent in s.events
  }

  /** A 200 ends exactly when it leaves both counters at 0; a 403 or a failure keeps its listing slot. */
  lemma ListingStepEndIfDone(cfg: Config, s: JobState, path: string, listing: Listing, tmpdir: string)
    requires Consistent(s) && path in s.listings
    ensures EndIfDone(ListingStep(cfg, s, path, listing, tmpdir))
  {
    assert EndEvent !in s.events;
    var s1 := Answered(s, path);
    match listing {
      case Ok(items) =>
        ProcessItemsCounts(cfg, s1, items);
        ProcessItemsEnd(cfg, s1, items);
      case RateLimited =>
        assert s.gonnaProcess > 0;
      case Failed =>
        assert s.gonnaProcess > 0;
    }
  }

  /** The mkdirs callback counts a listing in, so it leaves `gonnaProcess` above 0. */
  lemma MkdirsStepEndIfDone(cfg: Config, s: JobState, item: Item, failed: bool)
    requires Consistent(s)
    ensures EndIfDone(CheckDone(MkdirsCounted(cfg, s, item, failed)))
  {
    var c := MkdirsCounted(cfg, s, item, failed);
    assert c.gonnaProcess > 0;
  }

  /** The createFile callback leaves the file in flight, so `pending` stays above 0. */
  lemma CreateFileStepEndIfDone(cfg: Config, s: JobState, item: Item, failed: bool)
    requires Consistent(s) && CreatingFile(item) in s.ops
    ensures EndIfDone(CreateFileStep(cfg, s, item, failed))
  {
    assert s.pending > 0;
  }

  /** A written file ends with `checkDone`; a failed fetch or write keeps its `pending` slot. */
  lemma FileStepEndIfDone(cfg: Config, s: JobState, item: Item, outcome: FileOutcome)
    requires Consistent(s) && FetchingFile(item) in s.ops
    ensures EndIfDone(FileStep(cfg, s, item, outcome))
  {
    if outcome == Written {
      var h := WroteFile(cfg, s, item);
      assert EndEvent !in s.events;
      assert EndEvent !in h.events;
      CheckDoneEvents(h);
    } else {
      assert s.pending > 0;
    }
  }

  /**
   * Every callback that lowers a counter finishes with `checkDone`, and the others leave a
   * counter above 0: no callback leaves `end` overdue.
   */
  lemma ApplyKeepsEndIfDone(cfg: Config, s: JobState, step: Step)
    requires Consistent(s) && EndIfDone(s)
    ensures EndIfDone(Apply(cfg, s, step))
  {
    if Enabled(s, step) {
      match step
      case ListingDone(path, listing, tmpdir) =>
        assert Apply(cfg, s, step) == ListingStep(cfg, s, path, listing, tmpdir);
        ListingStepEndIfDone(cfg, s, path, listing, tmpdir);
      case MkdirsDone(item, failed) =>
        assert Apply(cfg, s, step) == CheckDone(MkdirsCounted(cfg, s, item, failed));
        MkdirsStepEndIfDone(cfg, s, item, failed);
      case CreateFileDone(item, failed) =>
        assert Apply(cfg, s, step) == CreateFileStep(cfg, s, item, failed);
        CreateFileStepEndIfDone(cfg, s, item, failed);
      case FileDone(item, outcome) =>
        assert Apply(cfg, s, step) == FileStep(cfg, s, item, outcome);
        FileStepEndIfDone(cfg, s, item, outcome);
    }
  }

  /** No sequence of callbacks leaves `end` overdue. */
  lemma {:induction false} RunKeepsEndIfDone(cfg: Config, s: JobState, steps: seq<Step>)
    requires Consistent(s) && EndIfDone(s)
    ensures EndIfDone(Run(cfg, s, steps))
    decreases |steps|
  {
    if steps != [] {
      ApplyKeepsEndIfDone(cfg, s, steps[0]);
      ApplyPreservesConsistent(cfg, s, steps[0]);
      RunKeepsEndIfDone(cfg, Apply(cfg, s, steps[0]), steps[1..]);
    }
  }

  /**
   * From a started job, whatever the order of the callbacks, `end` has been emitted exactly
   * when both counters are 0: it is never missed, and never premature.
   */
  lemma EndIffCountersZero(cfg: Config, steps: seq<Step>)
    ensures var r := Run(cfg, Started(cfg), steps);
      EndEvent in r.events <==> r.pending == 0 && r.gonnaProcess == 0
  {
    RunPreservesConsistent(cfg, Started(cfg), steps);
    RunKeepsEndIfDone(cfg, Started(cfg), steps);
  }

  /** Once a pending or listing slot is held forever, no later callback can emit `end`. */
  lemma {:induction false} NoEndOnceStalled(cfg: Config, s: JobState, steps: seq<Step>)
    requires Consistent(s) && (s.stuck > 0 || s.blocked > 0)
    ensures EndEvent !in Run(cfg, s, steps).events
  {
    RunPreservesConsistent(cfg, s, steps);
  }

  /** After the fallback to the archive, the traversal never emits `end`, although `checkDone` ignores `_getZip`. */
  lemma FallbackSuppressesEnd(cfg: Config, s: JobState, steps: seq<Step>)
    requires Consistent(s) && s.getZip
    ensures EndEvent !in Run(cfg, s, steps).events
  {
    NoEndOnceStalled(cfg, s, steps);
  }

  /** The callbacks after which a slot is never released. */
  predicate Stalls(step: Step)
  {
    match step
    case ListingDone(_, listing, _) =>
      listing.RateLimited? || listing.Failed? || (listing.Ok? && exists i :: 0 <= i < |listing.items| && IsMalformed(listing.items[i]))
    case FileDone(_, outcome) => outcome != Written
    case _ => false
  }

  /** A malformed item is counted by `Malformed`. */
  lemma {:induction false} MalformedCounts(items: seq<Item>, i: nat)
    requires i < |items| && IsMalformed(items[i])
    ensures Malformed(items) > 0
  {
    if i < |items| - 1 {
      assert items[..|items| - 1][i] == items[i];
      MalformedCounts(items[..|items| - 1], i);
    }
  }

  /**
   * A 403 or failed listing, an item that is neither `dir` nor `file`, and a file whose fetch or
   * write fails each hold a slot forever: the traversal's `end` can never fire afterwards.
   */
  lemma StallingStepPreventsEnd(cfg: Config, s: JobState, step: Step, later: seq<Step>)
    requires Consistent(s) && Enabled(s, step) && Stalls(step)
    ensures var r := Apply(cfg, s, step); r.stuck > 0 || r.blocked > 0
    ensures EndEvent !in Run(cfg, s, [step] + later).events
  {
    ApplyPreservesConsistent(cfg, s, step);
    var r := Apply(cfg, s, step);
    match step {
      case ListingDone(path, listing, tmpdir) =>
        if listing.Ok? {
          var i :| 0 <= i < |listing.items| && IsMalformed(listing.items[i]);
          MalformedItemStalls(cfg, s, path, listing.items, tmpdir, i);
        }
      case FileDone(item, outcome) =>
    }
    assert ([step] + later)[1..] == later;
    NoEndOnceStalled(cfg, r, later);
  }

  /** An item of unknown type is reported as 'Error', and stalls the traversal. */
  lemma MalformedItemStalls(cfg: Config, s: JobState, path: string, items: seq<Item>, tmpdir: string, i: nat)
    requires Consistent(s) && path in s.listings
    requires i < |items| && IsMalformed(items[i])
    ensures var r := Apply(cfg, s, ListingDone(path, Ok(items), tmpdir));
      r.stuck > 0 && UntypedItemError(items[i]) in r.events
  {
    assert EndEvent !in s.events;
    MalformedCounts(items, i);
    ApplyListingOk(cfg, s, path, items, tmpdir);
    ProcessItemsCounts(cfg, Answered(s, path), items);
    ProcessItemsEnd(cfg, Answered(s, path), items);
    ProcessItemsReports(cfg, Answered(s, path), items, i);
  }

  /** `processItems` counts in all the items and counts out one listing before handling any item. */
  lemma ListingOkCounts(cfg: Config, s: JobState, path: string, items: seq<Item>, tmpdir: string)
    requires Consistent(s) && path in s.listings
    ensures var r := Apply(cfg, s, ListingDone(path, Ok(items), tmpdir));
      && r.pending == s.pending + |items|
      && r.gonnaProcess == s.gonnaProcess - 1
      && r.listings == s.listings - multiset{path}
      && r.log == s.log && r.getZip == s.getZip
      && (EndEvent in r.events <==> s.pending + |items| == 0 && s.gonnaProcess == 1)
  {
    assert EndEvent !in s.events;
    ApplyListingOk(cfg, s, path, items, tmpdir);
    ProcessItemsCounts(cfg, Answered(s, path), items);
    ProcessItemsEnd(cfg, Answered(s, path), items);
  }

  /** A 403 listing falls back and never reaches `processItems`: its listing slot stays taken. */
  lemma RateLimitedKeepsSlot(cfg: Config, s: JobState, path: string, tmpdir: string)
    requires Consistent(s) && path in s.listings
    ensures var r := Apply(cfg, s, ListingDone(path, RateLimited, tmpdir));
      && r.gonnaProcess == s.gonnaProcess && r.pending == s.pending && r.ops == s.ops
      && r.blocked == s.blocked + 1 && r.getZip && r.log == s.log
      && EndEvent !in r.events
  {
    assert !Quiescent(s);
  }

  /**
   * The mkdirs callback logs the directory and requests its listing whether or not mkdirs
   * failed, and counts the listing in before counting the directory out, so it never emits `end`.
   */
  lemma DirStepNeverEnds(cfg: Config, s: JobState, item: Item, failed: bool)
    requires Consistent(s) && MakingDir(item) in s.ops
    ensures var r := Apply(cfg, s, MkdirsDone(item, failed));
      && r.events == s.events + (if failed then [ErrorEvent] else []) + [DirEvent(item.path)]
      && r.log == s.log + [cfg.LocalPath(item.path)]
      && r.listings == s.listings + multiset{item.path}
      && r.gonnaProcess == s.gonnaProcess + 1 && r.pending == s.pending - 1
      && r.effects == s.effects + [Get(cfg.ListingUrl(item.path))]
  {
  }

  /** Falling back twice is falling back once. */
  lemma DownloadZipIdempotent(cfg: Config, s: JobState, tmpdir: string, tmpdir': string)
    ensures DownloadZip(cfg, DownloadZip(cfg, s, tmpdir), tmpdir') == DownloadZip(cfg, s, tmpdir)
  {
  }
}
