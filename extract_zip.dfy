/**
 * `extractZip` of src/extract-zip.js: the archive's entries are written out under an output
 * directory, and a countdown over the entries calls back once with the name of the folder
 * the archive unpacks to. Reading the archive (AdmZip) and the writes themselves are not
 * modelled; an entry is its name and whether it is a directory.
 */
module Extract {
  import opened Wrappers
  import Paths
  import Urls

  /** An archive entry: its `entryName` and its `isDirectory` flag. */
  datatype Entry = Entry(name: string, isDirectory: bool)

  /**
   * What a finished extraction did: the folder name passed to the callback each time it ran,
   * the paths written, and the number of errors reported.
   */
  datatype Report = Report(callbacks: seq<string>, writes: seq<string>, errors: nat)

  /** Reading `entries[0].entryName` of an empty archive throws. */
  const NoFirstEntry := "Cannot read properties of undefined (reading 'entryName')"

  /** The indices of the entries that are files. */
  ghost function FileIndices(entries: seq<Entry>): set<nat>
  {
    set i: nat | i < |entries| && !entries[i].isDirectory
  }

  /** The writes the loop issues: one per file entry, in entry order, at its name resolved under `outputDir`. */
  function FileWrites(outputDir: string, entries: seq<Entry>): seq<string>
  {
    if entries == [] then []
    else
      var last := entries[|entries| - 1];
      FileWrites(outputDir, entries[..|entries| - 1])
        + (if last.isDirectory then [] else [Paths.Resolve(outputDir, last.name)])
  }

  /** How many of `done` are in `failed`. */
  function CountIn(done: seq<nat>, failed: set<nat>): nat
  {
    if done == [] then 0
    else CountIn(done[..|done| - 1], failed) + (if done[|done| - 1] in failed then 1 else 0)
  }

  /** Taking one more entry adds its index to the file indices exactly when it is a file. */
  lemma FileIndicesStep(entries: seq<Entry>, i: nat)
    requires i < |entries|
    ensures FileIndices(entries[..i + 1])
         == FileIndices(entries[..i]) + (if entries[i].isDirectory then {} else {i})
    ensures i !in FileIndices(entries[..i])
  {
    var s := entries[..i + 1];
    forall j: nat | j < |s|
      ensures j in FileIndices(s) <==> j in FileIndices(entries[..i]) + (if entries[i].isDirectory then {} else {i})
    {
      assert s[j] == entries[j];
    }
  }

  /** Taking one more entry adds its write when it is a file. */
  lemma FileWritesStep(outputDir: string, entries: seq<Entry>, i: nat)
    requires i < |entries|
    ensures FileWrites(outputDir, entries[..i + 1])
         == FileWrites(outputDir, entries[..i])
            + (if entries[i].isDirectory then [] else [Paths.Resolve(outputDir, entries[i].name)])
  {
    assert entries[..i + 1][..i] == entries[..i];
  }

  /** Counting one more completion. */
  lemma CountInStep(done: seq<nat>, k: nat, failed: set<nat>)
    requires k < |done|
    ensures CountIn(done[..k + 1], failed) == CountIn(done[..k], failed) + (if done[k] in failed then 1 else 0)
  {
    assert done[..k + 1][..k] == done[..k];
  }

  /** One write per file entry, and nothing else. */
  lemma {:induction false} FileWritesCount(outputDir: string, entries: seq<Entry>)
    ensures |FileWrites(outputDir, entries)| == |FileIndices(entries)|
    decreases |entries|
  {
    if entries != [] {
      var init := entries[..|entries| - 1];
      var last := entries[|entries| - 1];
      FileWritesCount(outputDir, init);
      FileIndicesStep(entries, |entries| - 1);
      assert entries[..|entries|] == entries;
    }
  }

  /** Every file entry's name, resolved under the output directory, is among the writes. */
  lemma {:induction false} FileWritesAreResolvedFiles(outputDir: string, entries: seq<Entry>, i: nat)
    requires i < |entries| && !entries[i].isDirectory
    ensures Paths.Resolve(outputDir, entries[i].name) in FileWrites(outputDir, entries)
    decreases |entries|
  {
    var init := entries[..|entries| - 1];
    if i < |entries| - 1 {
      assert init[i] == entries[i];
      FileWritesAreResolvedFiles(outputDir, init, i);
    }
  }

  /** A directory entry is never written, and every write is at a file entry's resolved name. */
  lemma {:induction false} WritesComeFromFiles(outputDir: string, entries: seq<Entry>, w: string)
    requires w in FileWrites(outputDir, entries)
    ensures exists i :: 0 <= i < |entries| && !entries[i].isDirectory && w == Paths.Resolve(outputDir, entries[i].name)
    decreases |entries|
  {
    var init := entries[..|entries| - 1];
    var last := entries[|entries| - 1];
    if w in FileWrites(outputDir, init) {
      WritesComeFromFiles(outputDir, init, w);
      var i :| 0 <= i < |init| && !init[i].isDirectory && w == Paths.Resolve(outputDir, init[i].name);
      assert entries[i] == init[i];
    } else {
      assert !last.isDirectory && w == Paths.Resolve(outputDir, last.name);
    }
  }

  /**
   * An archive laid out as `<repo>-<ref>/...` whose first entry is its root directory
   * unpacks to the folder `<repo>-<ref>`, the name `downloadZip` gives the archive.
   */
  lemma RootEntryNamesFolder(repo: string, ref: string, entries: seq<Entry>)
    requires '/' !in repo && '/' !in ref
    requires entries != [] && entries[0].name == Urls.ZipBaseDir(repo, ref) + "/"
    ensures Paths.Basename(entries[0].name) == Urls.ZipBaseDir(repo, ref)
  {
    var base := Urls.ZipBaseDir(repo, ref);
    assert base == repo + "-" + ref;
    assert '/' !in base by {
      forall k | 0 <= k < |base| ensures base[k] != '/' {
        if k < |repo| {
          assert base[k] == repo[k];
        } else if k > |repo| {
          assert base[k] == ref[k - |repo| - 1];
        }
      }
    }
    Paths.BasenameOfLastSegment([], base);
  }

  /** One run of `extractZip` on a non-empty archive, from its loop to the last `checkDone`. */
  class Extraction {
    const entries: seq<Entry>
    const outputDir: string
    const folderName: string
    var pending: int
    // the writes issued, the 'error' events emitted, and each run of the callback with its argument
    var writes: seq<string>
    var errors: nat
    var callbacks: seq<string>
    // the file entries whose write has not called back yet
    ghost var inFlight: set<nat>

    /** The countdown holds one slot per write in flight, and the callback has run exactly when it reached 0. */
    ghost predicate Valid()
      reads this
    {
      && entries != []
      && inFlight <= FileIndices(entries)
      && pending == |inFlight|
      && writes == FileWrites(outputDir, entries)
      && callbacks == (if pending == 0 then [folderName] else [])
    }

    /**
     * The synchronous part of `extractZip`: the countdown starts at the number of entries, the
     * folder name is the first entry's basename, each directory entry is counted off at once
     * and each file entry's write is issued.
     */
    constructor (entries: seq<Entry>, outputDir: string)
      requires entries != []
      ensures Valid()
      ensures this.entries == entries && this.outputDir == outputDir
      ensures folderName == Paths.Basename(entries[0].name)
      ensures inFlight == FileIndices(entries) && errors == 0
      ensures writes == FileWrites(outputDir, entries)
    {
      this.entries := entries;
      this.outputDir := outputDir;
      folderName := Paths.Basename(entries[0].name);
      pending := |entries|;
      writes := [];
      errors := 0;
      callbacks := [];
      inFlight := {};
      new;
      var i := 0;
      while i < |entries|
        invariant 0 <= i <= |entries| && Issued(i)
      {
        IssueEntry(i);
        i := i + 1;
      }
      assert entries[..|entries|] == entries;
    }

    /** The loop has gone through the first `i` entries, and no write has called back yet. */
    ghost predicate Issued(i: nat)
      reads this
    {
      && i <= |entries|
      && inFlight == FileIndices(entries[..i])
      && pending == |inFlight| + (|entries| - i)
      && writes == FileWrites(outputDir, entries[..i])
      && callbacks == (if pending == 0 then [folderName] else [])
      && errors == 0
    }

    /** One turn of the loop: a directory entry is counted off at once, a file entry's write is issued. */
    method IssueEntry(i: nat)
      requires i < |entries| && Issued(i)
      modifies this
      ensures Issued(i + 1)
    {
      FileIndicesStep(entries, i);
      FileWritesStep(outputDir, entries, i);
      if entries[i].isDirectory {
        CheckDone(false);
      } else {
        assert |inFlight + {i}| == |inFlight| + 1;
        writes := writes + [Paths.Resolve(outputDir, entries[i].name)];
        inFlight := inFlight + {i};
      }
    }

    /** `checkDone(err)`: report the error if any, count one off, call back when the count reaches 0. */
    method CheckDone(failed: bool)
      modifies this
      ensures pending == old(pending) - 1
      ensures errors == old(errors) + (if failed then 1 else 0)
      ensures callbacks == old(callbacks) + (if pending == 0 then [folderName] else [])
      ensures writes == old(writes) && inFlight == old(inFlight)
    {
      if failed {
        errors := errors + 1;
      }
      pending := pending - 1;
      if pending == 0 {
        callbacks := callbacks + [folderName];
      }
    }

    /** The `fs.outputFile` callback of file entry `i`: counted off whether or not the write failed. */
    method WriteDone(i: nat, failed: bool)
      requires Valid() && i in inFlight
      modifies this
      ensures Valid()
      ensures inFlight == old(inFlight) - {i}
      ensures errors == old(errors) + (if failed then 1 else 0)
      ensures callbacks == old(callbacks) + (if inFlight == {} then [folderName] else [])
    {
      inFlight := inFlight - {i};
      assert |inFlight| == |old(inFlight)| - 1;
      CheckDone(failed);
    }
  }

  /** `extractZip`: an empty archive throws on its first entry; otherwise the extraction starts. */
  method ExtractZip(entries: seq<Entry>, outputDir: string) returns (r: Result<Extraction, string>)
    ensures r.Failure? <==> entries == []
    ensures r.Failure? ==> r.error == NoFirstEntry
    ensures r.Success? ==>
      && fresh(r.value) && r.value.Valid()
      && r.value.entries == entries && r.value.outputDir == outputDir
      && r.value.folderName == Paths.Basename(entries[0].name)
      && r.value.inFlight == FileIndices(entries) && r.value.errors == 0
  {
    if entries == [] {
      return Failure(NoFirstEntry);
    }
    var x := new Extraction(entries, outputDir);
    return Success(x);
  }

  /**
   * A whole extraction: the writes call back in the order `completions`, those in `failed`
   * with an error. Whatever the order and the failures, the callback runs exactly once, with
   * the first entry's basename, every file entry is written once, and every failure is reported.
   */
  method RunToCompletion(entries: seq<Entry>, outputDir: string, completions: seq<nat>, failed: set<nat>)
    returns (r: Result<Report, string>)
    requires forall k :: 0 <= k < |completions| ==> completions[k] in FileIndices(entries)
    requires forall j, k :: 0 <= j < k < |completions| ==> completions[j] != completions[k]
    requires |completions| == |FileIndices(entries)|
    ensures r.Failure? <==> entries == []
    ensures r.Success? ==>
      && r.value.callbacks == [Paths.Basename(entries[0].name)]
      && r.value.writes == FileWrites(outputDir, entries)
      && r.value.errors == CountIn(completions, failed)
  {
    var started := ExtractZip(entries, outputDir);
    if started.Failure? {
      return Failure(started.error);
    }
    var x := started.value;
    var k := 0;
    while k < |completions|
      invariant 0 <= k <= |completions|
      invariant x.Valid() && x.entries == entries && x.outputDir == outputDir
      invariant x.folderName == Paths.Basename(entries[0].name)
      invariant forall m :: k <= m < |completions| ==> completions[m] in x.inFlight
      invariant |x.inFlight| == |FileIndices(entries)| - k
      invariant x.errors == CountIn(completions[..k], failed)
      modifies x
    {
      x.WriteDone(completions[k], completions[k] in failed);
      CountInStep(completions, k, failed);
      k := k + 1;
    }
    assert completions[..k] == completions;
    return Success(Report(x.callbacks, x.writes, x.errors));
  }
}
