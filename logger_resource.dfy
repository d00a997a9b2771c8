/**
 * The path logic of the `logger` resource: the `list` action's pruning of the
 * log directory tree and the `download` action's validation and normalisation
 * of the requested file names. The file system is an in-memory tree.
 */
module LoggerResource {
  import opened Common

  const LOG_SUFFIX := ".log"

  /**
   * A directory entry as `readdir(path, {withFileTypes: true})` reports it.
   * `File` is every entry that is not a directory.
   */
  datatype Entry = File(name: string) | Directory(name: string, listing: Listing)

  /** A directory's contents, or `Unreadable` when `readdir` rejects. */
  datatype Listing = Unreadable | Readable(entries: seq<Entry>)

  /** A node of the listing sent back: a log file name, or `{name, files}` for a directory. */
  datatype TreeNode = LogFile(name: string) | Folder(name: string, files: seq<TreeNode>)

  // ---------------------------------------------------------------------------
  // list: the readDir pruning
  // ---------------------------------------------------------------------------

  /** What one entry contributes to its directory's listing. */
  function PruneEntry(e: Entry): (r: seq<TreeNode>)
    ensures |r| <= 1
    decreases e
  {
    match e
    case File(name) => if EndsWith(name, LOG_SUFFIX) then [LogFile(name)] else []
    case Directory(name, listing) =>
      var sub := Prune(listing);
      if sub == [] then [] else [Folder(name, sub)]
  }

  /** The contributions of the entries, in enumeration order. */
  function PruneEntries(es: seq<Entry>): (r: seq<TreeNode>)
    ensures |r| <= |es|
    decreases es
  {
    if es == [] then [] else PruneEntries(es[..|es| - 1]) + PruneEntry(es[|es| - 1])
  }

  /** The pruned listing of a directory: at most one node per entry; an unreadable one lists nothing. */
  function Prune(listing: Listing): (r: seq<TreeNode>)
    ensures listing.Readable? ==> |r| <= |listing.entries|
    decreases listing
  {
    match listing
    case Unreadable => []
    case Readable(es) => PruneEntries(es)
  }

  /**
   * `readDir(path)`: walks the entries in order, recursing into directories,
   * skipping those whose listing comes back empty and keeping only `.log` files.
   */
  method ReadDir(listing: Listing) returns (fileTree: seq<TreeNode>)
    ensures fileTree == Prune(listing)
    ensures listing.Unreadable? ==> fileTree == []
    decreases listing
  {
    match listing {
      case Unreadable =>
        fileTree := [];
      case Readable(files) =>
        fileTree := [];
        for i := 0 to |files|
          invariant fileTree == PruneEntries(files[..i])
        {
          var file := files[i];
          assert files[..i + 1][..i] == files[..i];
          if file.Directory? {
            var subFiles := ReadDir(file.listing);
            if |subFiles| == 0 {
              continue;
            }
            fileTree := fileTree + [Folder(file.name, subFiles)];
          } else if EndsWith(file.name, LOG_SUFFIX) {
            fileTree := fileTree + [LogFile(file.name)];
          }
        }
        assert files[..|files|] == files;
    }
  }

  /** Pruning distributes over concatenation of entry lists. */
  lemma {:induction false} PruneEntriesAppend(a: seq<Entry>, b: seq<Entry>)
    ensures PruneEntries(a + b) == PruneEntries(a) + PruneEntries(b)
    decreases |b|
  {
    if b == [] {
      assert a + b == a;
    } else {
      var n := |b| - 1;
      assert (a + b)[..|a + b| - 1] == a + b[..n];
      assert (a + b)[|a + b| - 1] == b[n];
      PruneEntriesAppend(a, b[..n]);
    }
  }

  /**
   * A directory whose pruned listing is empty (an unreadable one included)
   * contributes nothing: its parent lists the entries around it as if it were absent.
   */
  lemma EmptyDirectoryOmitted(es: seq<Entry>, i: nat)
    requires i < |es| && es[i].Directory? && Prune(es[i].listing) == []
    ensures PruneEntries(es) == PruneEntries(es[..i]) + PruneEntries(es[i + 1..])
  {
    PruneEntriesSplit(es, i + 1);
    PruneEntriesPrefix(es, i);
    var e := es[i];
    assert PruneEntry(e) == [];
    assert PruneEntries(es[..i]) + PruneEntry(e) == PruneEntries(es[..i]);
  }

  /** The listing of the entries is that of a prefix followed by that of the rest. */
  lemma {:induction false} PruneEntriesSplit(es: seq<Entry>, k: nat)
    requires k <= |es|
    ensures PruneEntries(es) == PruneEntries(es[..k]) + PruneEntries(es[k..])
  {
    PruneEntriesAppend(es[..k], es[k..]);
    assert es[..k] + es[k..] == es;
  }

  /** Extending a prefix of the entries by one entry extends its listing by that entry's contribution. */
  lemma PruneEntriesPrefix(es: seq<Entry>, i: nat)
    requires i < |es|
    ensures PruneEntries(es[..i + 1]) == PruneEntries(es[..i]) + PruneEntry(es[i])
  {
    var upTo := es[..i + 1];
    assert upTo[..|upTo| - 1] == es[..i];
  }

  /** Every leaf of a listing is a `.log` file and every folder in it has a non-empty `files` list. */
  ghost predicate WellFormedListing(ts: seq<TreeNode>)
    decreases ts
  {
    forall i :: 0 <= i < |ts| ==> WellFormedNode(ts[i])
  }

  ghost predicate WellFormedNode(t: TreeNode)
    decreases t
  {
    match t
    case LogFile(name) => EndsWith(name, LOG_SUFFIX)
    case Folder(_, files) => files != [] && WellFormedListing(files)
  }

  /** Only `.log` files are listed, and no folder in the listing is empty. */
  lemma {:induction false} PruneWellFormed(listing: Listing)
    ensures WellFormedListing(Prune(listing))
    decreases listing, 2
  {
    match listing
    case Unreadable =>
    case Readable(es) => PruneEntriesWellFormed(es);
  }

  lemma {:induction false} PruneEntriesWellFormed(es: seq<Entry>)
    ensures WellFormedListing(PruneEntries(es))
    decreases es, 1
  {
    if es != [] {
      var n := |es| - 1;
      PruneEntriesWellFormed(es[..n]);
      PruneEntryWellFormed(es[n]);
      var a, b := PruneEntries(es[..n]), PruneEntry(es[n]);
      forall i | 0 <= i < |a + b|
        ensures WellFormedNode((a + b)[i])
      {
        if i < |a| {
          assert (a + b)[i] == a[i];
        } else {
          assert (a + b)[i] == b[i - |a|];
        }
      }
    }
  }

  lemma {:induction false} PruneEntryWellFormed(e: Entry)
    ensures WellFormedListing(PruneEntry(e))
    decreases e, 0
  {
    match e
    case File(_) =>
    case Directory(name, listing) => PruneWellFormed(listing);
  }

  // ---------------------------------------------------------------------------
  // list: the listing keeps exactly the log files, in order
  // ---------------------------------------------------------------------------

  /** Each path with `name` put in front. */
  function Under(name: string, paths: seq<seq<string>>): seq<seq<string>> {
    seq(|paths|, i requires 0 <= i < |paths| => [name] + paths[i])
  }

  /** The paths of the `.log` files reachable through readable directories, in depth-first enumeration order. */
  function LogPaths(listing: Listing): seq<seq<string>>
    decreases listing
  {
    match listing
    case Unreadable => []
    case Readable(es) => LogPathsOfEntries(es)
  }

  function LogPathsOfEntries(es: seq<Entry>): seq<seq<string>>
    decreases es
  {
    if es == [] then [] else LogPathsOfEntries(es[..|es| - 1]) + LogPathsOfEntry(es[|es| - 1])
  }

  function LogPathsOfEntry(e: Entry): seq<seq<string>>
    decreases e
  {
    match e
    case File(name) => if EndsWith(name, LOG_SUFFIX) then [[name]] else []
    case Directory(name, listing) => Under(name, LogPaths(listing))
  }

  /** The paths of the file leaves of a listing, in order. */
  function ListedPaths(ts: seq<TreeNode>): seq<seq<string>>
    decreases ts
  {
    if ts == [] then [] else ListedPaths(ts[..|ts| - 1]) + NodePaths(ts[|ts| - 1])
  }

  function NodePaths(t: TreeNode): seq<seq<string>>
    decreases t
  {
    match t
    case LogFile(name) => [[name]]
    case Folder(name, files) => Under(name, ListedPaths(files))
  }

  lemma {:induction false} ListedPathsAppend(a: seq<TreeNode>, b: seq<TreeNode>)
    ensures ListedPaths(a + b) == ListedPaths(a) + ListedPaths(b)
    decreases |b|
  {
    if b == [] {
      assert a + b == a;
    } else {
      var n := |b| - 1;
      assert (a + b)[..|a + b| - 1] == a + b[..n];
      assert (a + b)[|a + b| - 1] == b[n];
      ListedPathsAppend(a, b[..n]);
    }
  }

  lemma ListedPathsSingle(t: TreeNode)
    ensures ListedPaths([t]) == NodePaths(t)
  {
    assert [t][..0] == [];
  }

  /**
   * The listing loses no log file and invents none: its leaf paths are exactly
   * the paths of the `.log` files under readable directories, in enumeration order.
   */
  lemma {:induction false} PruneKeepsLogPaths(listing: Listing)
    ensures ListedPaths(Prune(listing)) == LogPaths(listing)
    decreases listing, 2
  {
    match listing
    case Unreadable =>
    case Readable(es) => PruneEntriesKeepLogPaths(es);
  }

  lemma {:induction false} PruneEntriesKeepLogPaths(es: seq<Entry>)
    ensures ListedPaths(PruneEntries(es)) == LogPathsOfEntries(es)
    decreases es, 1
  {
    if es != [] {
      var n := |es| - 1;
      PruneEntriesKeepLogPaths(es[..n]);
      PruneEntryKeepsLogPaths(es[n]);
      ListedPathsAppend(PruneEntries(es[..n]), PruneEntry(es[n]));
    }
  }

  lemma {:induction false} PruneEntryKeepsLogPaths(e: Entry)
    ensures ListedPaths(PruneEntry(e)) == LogPathsOfEntry(e)
    decreases e, 0
  {
    match e
    case File(name) =>
      if EndsWith(name, LOG_SUFFIX) {
        ListedPathsSingle(LogFile(name));
      }
    case Directory(name, listing) =>
      PruneKeepsLogPaths(listing);
      if Prune(listing) != [] {
        ListedPathsSingle(Folder(name, Prune(listing)));
      }
  }

  // ---------------------------------------------------------------------------
  // download: validation and normalisation of the requested names
  // ---------------------------------------------------------------------------

  /** The rejection `ctx.throw(status, …)`; the message text is not modelled. */
  datatype HttpError = HttpError(status: nat)

  const INVALID_FILE_TYPE := HttpError(400)

  /** A name that starts with `/` loses that one character; others are unchanged. */
  function StripLeadingSlash(file: string): string {
    if StartsWith(file, "/") then file[1..] else file
  }

  /** `files.map(…)`: length and order are kept; each name loses exactly one leading `/`, if it has one. */
  function Normalize(files: seq<string>): (r: seq<string>)
    ensures |r| == |files|
    ensures forall i :: 0 <= i < |files| ==>
      if StartsWith(files[i], "/") then "/" + r[i] == files[i] else r[i] == files[i]
  {
    var r := seq(|files|, i requires 0 <= i < |files| => StripLeadingSlash(files[i]));
    assert forall i :: 0 <= i < |files| && StartsWith(files[i], "/") ==> "/" + r[i] == files[i] by {
      forall i | 0 <= i < |files| && StartsWith(files[i], "/")
        ensures "/" + r[i] == files[i]
      {
        assert files[i] == files[i][..1] + files[i][1..];
      }
    }
    r
  }

  /**
   * The file list of `download`: an absent list is empty; any name not ending in
   * `.log` rejects with 400; otherwise every name loses exactly one leading `/`,
   * length and order are kept, and every resulting name still ends in `.log`.
   */
  function DownloadFileList(files: Option<seq<string>>): (r: Result<seq<string>, HttpError>)
    ensures var requested := files.GetOr([]);
      && (r.Err? <==> exists i :: 0 <= i < |requested| && !EndsWith(requested[i], LOG_SUFFIX))
      && (r.Err? ==> r.error.status == 400)
      && (r.Ok? ==>
            && |r.value| == |requested|
            && forall i :: 0 <= i < |requested| ==>
                 && EndsWith(r.value[i], LOG_SUFFIX)
                 && (if StartsWith(requested[i], "/") then "/" + r.value[i] == requested[i]
                     else r.value[i] == requested[i]))
  {
    var requested := files.GetOr([]);
    if exists f :: f in requested && !EndsWith(f, LOG_SUFFIX) then
      Err(INVALID_FILE_TYPE)
    else
      var normalized := Normalize(requested);
      assert forall i :: 0 <= i < |requested| ==> EndsWith(normalized[i], LOG_SUFFIX) by {
        forall i | 0 <= i < |requested|
          ensures EndsWith(normalized[i], LOG_SUFFIX)
        {
          assert requested[i] in requested;
          StripKeepsLogSuffix(requested[i]);
        }
      }
      Ok(normalized)
  }

  /** Stripping the leading `/` of a `.log` name keeps the suffix: such a name has at least five characters. */
  lemma StripKeepsLogSuffix(file: string)
    requires EndsWith(file, LOG_SUFFIX)
    ensures EndsWith(StripLeadingSlash(file), LOG_SUFFIX)
  {
    if StartsWith(file, "/") {
      assert file[0] == '/' && file[|file| - 4] == '.';
      assert |file| >= 5;
      assert file[1..][|file| - 5..] == file[|file| - 4..];
    }
  }
}
