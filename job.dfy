/**
 * The download job of src/main.js as an object: `GithubDownloader`'s fields, the closure
 * counters of its `start`, and one atomic method per callback. Each method is proved to do
 * exactly what `Traversal.Apply` says of that callback, so the invariant and the lemmas of
 * module `Traversal` hold of every job.
 */
module Downloader {
  import opened Wrappers
  import opened Params
  import opened Traversal
  import Urls
  import Paths

  /**
   * What the job does not hold itself but the model tracks: the listing requests and item
   * operations in flight, the slots that are never released, the archive session, the
   * events emitted and the I/O issued.
   */
  datatype Ledger = Ledger(
    listings: multiset<string>,
    ops: multiset<Op>,
    stuck: nat,
    blocked: nat,
    archive: Option<Archive>,
    events: seq<Event>,
    effects: seq<Effect>)

  class Job {
    const user: Option<string>
    const repo: Option<string>
    const ref: string
    const dir: string
    var log: seq<string>
    var getZip: bool
    // the closure counters of `start`
    var pending: int
    var gonnaProcess: int
    ghost var ledger: Ledger

    function Cfg(): Config
    {
      Config(user, repo, ref, dir)
    }

    ghost function State(): JobState
      reads this
    {
      JobState(log, getZip, pending, gonnaProcess, ledger.listings, ledger.ops, ledger.stuck, ledger.blocked,
        ledger.archive, ledger.events, ledger.effects)
    }

    ghost predicate Valid()
      reads this
    {
      Consistent(State())
    }

    /** `new GithubDownloader(user, repo, ref, dir)`: the ref defaults to `master`. */
    constructor (user: Option<string>, repo: Option<string>, ref: Option<string>, dir: string)
      ensures this.user == user && this.repo == repo && this.dir == dir
      ensures this.ref == OrElse(ref, "master") && this.ref != ""
      ensures Truthy(ref) ==> this.ref == ref.value
      ensures log == [] && !getZip
      ensures State() == Initial()
    {
      this.user := user;
      this.repo := repo;
      this.ref := OrElse(ref, "master");
      this.dir := dir;
      log := [];
      getZip := false;
      pending, gonnaProcess := 0, 0;
      ledger := Ledger(multiset{}, multiset{}, 0, 0, None, [], []);
    }

    /** `start`: count in and request the root listing, with the ref as query. */
    method Start()
      requires State() == Initial()
      modifies this
      ensures Valid() && State() == Started(Cfg())
      ensures ledger.effects == [Get(Urls.ListingUrl(Display(user), Display(repo), ref, ""))]
    {
      gonnaProcess := gonnaProcess + 1;
      ledger := ledger.(listings := ledger.listings + multiset{""},
        effects := ledger.effects + [Get(Cfg().ListingUrl(""))]);
    }

    /** `checkDone`, reading the counters only. */
    method CheckDone()
      modifies this
      ensures State() == Traversal.CheckDone(old(State()))
    {
      if pending == 0 && gonnaProcess == 0 {
        ledger := ledger.(events := ledger.events + [EndEvent]);
      }
    }

    /** `handleItem`: the request it issues, or the 'Error' report for an unknown type. */
    method HandleItem(item: Item)
      modifies this
      ensures State() == Traversal.HandleItem(Cfg(), old(State()), item)
    {
      var itemType := TypeOf(item.kind);
      if itemType == Dir {
        ledger := ledger.(ops := ledger.ops + multiset{MakingDir(item)},
          effects := ledger.effects + [Mkdirs(Paths.Join(dir, item.path))]);
      } else if itemType == File {
        ledger := ledger.(ops := ledger.ops + multiset{CreatingFile(item)},
          effects := ledger.effects + [CreateFile(Paths.Join(dir, item.path))]);
      } else {
        ledger := ledger.(events := ledger.events + [UntypedItemError(item)], stuck := ledger.stuck + 1);
      }
    }

    /** `processItems`: count the items in and the listing out, handle each item, check. */
    method ProcessItems(items: seq<Item>)
      modifies this
      ensures State() == Traversal.ProcessItems(Cfg(), old(State()), items)
    {
      pending := pending + |items|;
      gonnaProcess := gonnaProcess - 1;
      ghost var counted := State();
      assert counted == Counted(old(State()), |items|);
      var i := 0;
      while i < |items|
        invariant 0 <= i <= |items|
        invariant State() == HandleAll(Cfg(), counted, items[..i])
      {
        HandleAllStep(Cfg(), counted, items, i);
        HandleItem(items[i]);
        i := i + 1;
      }
      assert items[..|items|] == items;
      CheckDone();
    }

    /** `downloadZip`'s loop: one `fs.remove` per logged path, in log order. */
    method RemoveLogged()
      modifies this
      ensures State() == old(State()).(effects := old(ledger.effects) + Removals(log))
    {
      var i := 0;
      while i < |log|
        invariant 0 <= i <= |log|
        invariant State() == old(State()).(effects := old(ledger.effects) + Removals(log[..i]))
      {
        ledger := ledger.(effects := ledger.effects + [Remove(log[i])]);
        assert log[..i + 1][..i] == log[..i];
        i := i + 1;
      }
      assert log[..|log|] == log;
    }

    /** `downloadZip`: once only, set the flag, remove every logged path, announce the archive URL. */
    method DownloadZip(tmpdir: string)
      modifies this
      ensures State() == Traversal.DownloadZip(Cfg(), old(State()), tmpdir)
      ensures log == old(log) && getZip
    {
      if getZip {
        return;
      }
      getZip := true;
      RemoveLogged();
      var zipFile := Paths.Join(tmpdir, Urls.ZipName(Display(repo), ref));
      var zipUrl := Urls.ZipUrl(Display(user), Display(repo), ref);
      ledger := ledger.(events := ledger.events + [ZipEvent(zipUrl)],
        archive := Some(Archive(tmpdir, zipFile, zipUrl)),
        effects := ledger.effects + [Mkdir(tmpdir)]);
    }

    /** requestJSON's handling of a listing reply: 403 falls back, other failures report, 200 is processed. */
    method OnListing(path: string, listing: Listing, tmpdir: string)
      modifies this
      ensures State() == ListingStep(Cfg(), old(State()), path, listing, tmpdir)
    {
      ledger := ledger.(listings := ledger.listings - multiset{path});
      assert State() == Answered(old(State()), path);
      match listing {
        case RateLimited =>
          ledger := ledger.(blocked := ledger.blocked + 1);
          assert State() == Blocked(Answered(old(State()), path));
          DownloadZip(tmpdir);
        case Failed =>
          ledger := ledger.(blocked := ledger.blocked + 1, events := ledger.events + [ErrorEvent]);
        case Ok(items) =>
          ProcessItems(items);
      }
    }

    /** The mkdirs callback: log, count in and request the child listing, count the directory out, check. */
    method OnMkdirs(item: Item, failed: bool)
      modifies this
      ensures State() == Traversal.CheckDone(MkdirsCounted(Cfg(), old(State()), item, failed))
    {
      ghost var counted := MkdirsCounted(Cfg(), State(), item, failed);
      ledger := ledger.(ops := ledger.ops - multiset{MakingDir(item)});
      if failed {
        ledger := ledger.(events := ledger.events + [ErrorEvent]);
      }
      log := log + [Paths.Join(dir, item.path)];
      gonnaProcess := gonnaProcess + 1;
      ledger := ledger.(listings := ledger.listings + multiset{item.path},
        effects := ledger.effects + [Get(Cfg().ListingUrl(item.path))],
        events := ledger.events + [DirEvent(item.path)]);
      pending := pending - 1;
      assert State() == counted;
      CheckDone();
    }

    /** The createFile callback: report a failure, then fetch the raw content regardless. */
    method OnCreateFile(item: Item, failed: bool)
      modifies this
      ensures State() == CreateFileStep(Cfg(), old(State()), item, failed)
    {
      ledger := ledger.(ops := ledger.ops - multiset{CreatingFile(item)} + multiset{FetchingFile(item)});
      if failed {
        ledger := ledger.(events := ledger.events + [ErrorEvent]);
      }
      ledger := ledger.(effects := ledger.effects + [Get(Cfg().RawUrl(item.path))]);
    }

    /** The end of the fetch chain: on success log, count the file out and check; on failure only report. */
    method OnFileDone(item: Item, outcome: FileOutcome)
      modifies this
      ensures State() == FileStep(Cfg(), old(State()), item, outcome)
    {
      ledger := ledger.(ops := ledger.ops - multiset{FetchingFile(item)});
      var file := Paths.Join(dir, item.path);
      match outcome {
        case Written =>
          ledger := ledger.(effects := ledger.effects + [WriteFile(file)]);
          log := log + [file];
          ledger := ledger.(events := ledger.events + [FileEvent(item.path)]);
          pending := pending - 1;
          assert State() == WroteFile(Cfg(), old(State()), item);
          CheckDone();
        case FetchRejected =>
          ledger := ledger.(events := ledger.events + [ErrorEvent], stuck := ledger.stuck + 1);
        case WriteRejected =>
          ledger := ledger.(effects := ledger.effects + [WriteFile(file)], events := ledger.events + [ErrorEvent],
            stuck := ledger.stuck + 1);
      }
    }

    /**
     * The event loop runs the callback of one operation in flight. The job stays consistent:
     * its counters keep accounting for the work in flight and the slots never released.
     */
    method Deliver(step: Step)
      requires Valid() && Enabled(State(), step)
      modifies this
      ensures Valid() && State() == Apply(Cfg(), old(State()), step)
    {
      StepKeepsConsistent(Cfg(), State(), step);
      match step {
        case ListingDone(path, listing, tmpdir) => OnListing(path, listing, tmpdir);
        case MkdirsDone(item, failed) => OnMkdirs(item, failed);
        case CreateFileDone(item, failed) => OnCreateFile(item, failed);
        case FileDone(item, outcome) => OnFileDone(item, outcome);
      }
    }
  }

  /**
   * The exported factory: resolve the parameter, default the directory to the working
   * directory, build the job and start it. `vcsurl` is what the `vcsurl` library returns for
   * the text before the `#`; `cwd` is `process.cwd()`.
   */
  method GithubDownload(params: Param, dir: Option<string>, vcsurl: Option<string>, cwd: string)
    returns (r: Result<Job, string>)
    ensures r.Failure? <==> params.Other?
    ensures r.Success? ==>
      var c := Resolve(params, vcsurl).value;
      && fresh(r.value) && r.value.Valid()
      && r.value.Cfg() == Config(c.user, c.repo, OrElse(c.ref, "master"), OrElse(dir, cwd))
      && r.value.State() == Started(r.value.Cfg())
  {
    var resolved := Resolve(params, vcsurl);
    if resolved.Failure? {
      return Failure(resolved.error);
    }
    var c := resolved.value;
    var job := new Job(c.user, c.repo, c.ref, OrElse(dir, cwd));
    job.Start();
    return Success(job);
  }
}
