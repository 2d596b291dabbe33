/** The batch classifier of the file-system watcher: what one Watchman change
    notification turns into, as a sequence of typed events.

    The functions here specify the subscribe callback of
    src/model/fileSystemWatcher.ts; the callback itself, with its loop, is
    FileSystemWatcher.Watcher.OnChange. The lemmas connect the specification
    to an independent classification of the records (Classification,
    CountRecordsOfKind) and state what a batch can and cannot produce.
 */
module Classifier {

  /** One record of a Watchman batch. `kind` is Watchman's one-letter file
      type ("f" regular file, "d" directory, "l" symbolic link, ...). */
  datatype FileRecord = FileRecord(name: string, present: bool, size: int, kind: string)

  /** One notification: the watched root and its records, in delivery order. */
  datatype FileChange = FileChange(root: string, files: seq<FileRecord>)

  /** The uri of a file below a root. Path joining and uri normalisation are
      not modelled: the uri only records the pair it was built from. */
  datatype Uri = FileUri(root: string, name: string)

  function Join(root: string, name: string): Uri {
    FileUri(root, name)
  }

  /** What the four emitters fire, tagged by emitter. */
  datatype Event =
    | Created(uri: Uri)
    | Changed(uri: Uri)
    | Deleted(uri: Uri)
    | Renamed(oldUri: Uri, newUri: Uri)

  datatype EventKind = Create | Change | Delete | Rename

  /** The three suppression flags; renames have none. */
  datatype IgnoreFlags = IgnoreFlags(create: bool, change: bool, delete: bool)

  function KindOf(e: Event): EventKind {
    match e
    case Created(_) => Create
    case Changed(_) => Change
    case Deleted(_) => Delete
    case Renamed(_, _) => Rename
  }

  function Suppressed(flags: IgnoreFlags, k: EventKind): bool {
    match k
    case Create => flags.create
    case Change => flags.change
    case Delete => flags.delete
    case Rename => false
  }

  predicate IsFile(f: FileRecord) {
    f.kind == "f"
  }

  /** The reference classification of one file record: a missing file was
      deleted, an empty existing file was created, any other existing file
      was changed. A single record is never a rename. */
  function Classification(f: FileRecord): (k: EventKind)
    ensures k != Rename
  {
    if !f.present then Delete
    else if f.size == 0 then Create
    else Change
  }

  /** How many file records of `files` classify as `k`; other records do not count. */
  function CountRecordsOfKind(files: seq<FileRecord>, k: EventKind): (n: nat)
    ensures n <= |files|
    ensures k == Rename ==> n == 0
  {
    if files == [] then 0
    else (if IsFile(files[0]) && Classification(files[0]) == k then 1 else 0)
         + CountRecordsOfKind(files[1..], k)
  }

  /** How many events of `events` are of kind `k`. */
  function CountKind(events: seq<Event>, k: EventKind): (n: nat)
    ensures n <= |events|
  {
    if events == [] then 0
    else (if KindOf(events[0]) == k then 1 else 0) + CountKind(events[1..], k)
  }

  /** The `files.filter(f => f.type == 'f')` step: the file records, in order. */
  function FilesOnly(files: seq<FileRecord>): (r: seq<FileRecord>)
    ensures |r| <= |files|
    ensures forall i :: 0 <= i < |r| ==> IsFile(r[i])
  {
    if files == [] then []
    else (if IsFile(files[0]) then [files[0]] else []) + FilesOnly(files[1..])
  }

  /** What one filtered record fires inside the loop: at most one event, for
      its own uri, of the kind the record classifies as, and none exactly when
      that kind is suppressed. */
  function FileEvent(root: string, f: FileRecord, flags: IgnoreFlags): (r: seq<Event>)
    ensures |r| <= 1
    ensures r == [] <==> Suppressed(flags, Classification(f))
    ensures |r| == 1 ==> KindOf(r[0]) == Classification(f) && !r[0].Renamed? && r[0].uri == Join(root, f.name)
  {
    var uri := Join(root, f.name);
    if !f.present then
      (if flags.delete then [] else [Deleted(uri)])
    else if f.size != 0 then
      (if flags.change then [] else [Changed(uri)])
    else
      (if flags.create then [] else [Created(uri)])
  }

  /** What the loop over the filtered records fires: never a rename, and at
      most one event per record. */
  function FileEvents(root: string, files: seq<FileRecord>, flags: IgnoreFlags): (r: seq<Event>)
    ensures |r| <= |files|
    ensures CountKind(r, Rename) == 0
  {
    if files == [] then []
    else
      var head := FileEvent(root, files[0], flags);
      var tail := FileEvents(root, files[1..], flags);
      CountKindAppend(head, tail, Rename);
      head + tail
  }

  /** The rename window: exactly two records, the first gone, the second
      present, with equal sizes. */
  predicate IsRename(files: seq<FileRecord>) {
    |files| == 2 && !files[0].present && files[1].present && files[0].size == files[1].size
  }

  /** The rename inference after the loop: one Renamed event from the first
      record's uri to the second's exactly when the window matches, whatever
      the flags are. */
  function RenameEvent(root: string, files: seq<FileRecord>): (r: seq<Event>)
    ensures |r| <= 1
    ensures r != [] <==> IsRename(files)
    ensures IsRename(files) ==> r == [Renamed(Join(root, files[0].name), Join(root, files[1].name))]
  {
    if |files| == 2 && !files[0].present && files[1].present then
      var oldFile, newFile := files[0], files[1];
      if oldFile.size == newFile.size then
        [Renamed(Join(root, oldFile.name), Join(root, newFile.name))]
      else []
    else []
  }

  /** Everything one batch fires, in order: the per-file events of the file
      records, then the inferred rename. At most one event more than there are
      file records, and at most one rename. */
  function BatchEvents(change: FileChange, flags: IgnoreFlags): (r: seq<Event>)
    ensures |r| <= |FilesOnly(change.files)| + 1
    ensures CountKind(r, Rename) <= 1
  {
    var files := FilesOnly(change.files);
    CountKindAppend(FileEvents(change.root, files, flags), RenameEvent(change.root, files), Rename);
    FileEvents(change.root, files, flags) + RenameEvent(change.root, files)
  }

  // ---------------------------------------------------------------------
  // Lemmas

  lemma {:induction false} FilesOnlyAppend(a: seq<FileRecord>, b: seq<FileRecord>)
    ensures FilesOnly(a + b) == FilesOnly(a) + FilesOnly(b)
  {
    if a == [] {
      assert a + b == b;
    } else {
      assert (a + b)[0] == a[0];
      assert (a + b)[1..] == a[1..] + b;
      FilesOnlyAppend(a[1..], b);
    }
  }

  lemma {:induction false} FileEventsAppend(root: string, a: seq<FileRecord>, b: seq<FileRecord>, flags: IgnoreFlags)
    ensures FileEvents(root, a + b, flags) == FileEvents(root, a, flags) + FileEvents(root, b, flags)
  {
    if a == [] {
      assert a + b == b;
    } else {
      assert (a + b)[0] == a[0];
      assert (a + b)[1..] == a[1..] + b;
      FileEventsAppend(root, a[1..], b, flags);
    }
  }

  /** One more turn of the loop fires the events of one more record. */
  lemma FileEventsStep(root: string, files: seq<FileRecord>, i: nat, flags: IgnoreFlags)
    requires i < |files|
    ensures FileEvents(root, files[..i + 1], flags) == FileEvents(root, files[..i], flags) + FileEvent(root, files[i], flags)
  {
    assert files[..i + 1] == files[..i] + [files[i]];
    FileEventsAppend(root, files[..i], [files[i]], flags);
    assert [files[i]][1..] == [];
  }

  lemma {:induction false} CountKindAppend(xs: seq<Event>, ys: seq<Event>, k: EventKind)
    ensures CountKind(xs + ys, k) == CountKind(xs, k) + CountKind(ys, k)
  {
    if xs == [] {
      assert xs + ys == ys;
    } else {
      assert (xs + ys)[0] == xs[0];
      assert (xs + ys)[1..] == xs[1..] + ys;
      CountKindAppend(xs[1..], ys, k);
    }
  }

  /** A kind that is counted zero times occurs nowhere. */
  lemma {:induction false} CountKindZero(events: seq<Event>, k: EventKind)
    requires CountKind(events, k) == 0
    ensures forall j :: 0 <= j < |events| ==> KindOf(events[j]) != k
  {
    if events != [] {
      CountKindZero(events[1..], k);
      assert forall j :: 1 <= j < |events| ==> events[j] == events[1..][j - 1];
    }
  }

  /** Filtering out the non-file records does not change how many records
      classify as any kind. */
  lemma {:induction false} FilesOnlyCount(files: seq<FileRecord>, k: EventKind)
    ensures CountRecordsOfKind(FilesOnly(files), k) == CountRecordsOfKind(files, k)
  {
    if files != [] {
      FilesOnlyCount(files[1..], k);
      var rest := FilesOnly(files[1..]);
      if IsFile(files[0]) {
        assert FilesOnly(files) == [files[0]] + rest;
        assert ([files[0]] + rest)[1..] == rest;
      } else {
        assert FilesOnly(files) == rest;
      }
    }
  }

  /** The loop fires, for each kind, one event per record of that kind unless
      the kind is suppressed. */
  lemma {:induction false} FileEventsCount(root: string, files: seq<FileRecord>, flags: IgnoreFlags, k: EventKind)
    requires forall i :: 0 <= i < |files| ==> IsFile(files[i])
    ensures CountKind(FileEvents(root, files, flags), k)
         == if Suppressed(flags, k) then 0 else CountRecordsOfKind(files, k)
  {
    if files != [] {
      var head := FileEvent(root, files[0], flags);
      var tail := FileEvents(root, files[1..], flags);
      CountKindAppend(head, tail, k);
      FileEventsCount(root, files[1..], flags, k);
      if head != [] {
        assert head == [head[0]];
        assert KindOf(head[0]) == Classification(files[0]);
      }
    }
  }

  /** How many events of each kind a batch fires, stated over the raw
      records: a Deleted per missing file, a Changed per non-empty existing
      file, a Created per empty existing file, each unless its flag is set,
      and one Renamed exactly when the rename window matches. Directories and
      other non-file records contribute nothing. */
  lemma BatchKindCount(change: FileChange, flags: IgnoreFlags, k: EventKind)
    ensures CountKind(BatchEvents(change, flags), k)
         == if k == Rename then (if IsRename(FilesOnly(change.files)) then 1 else 0)
            else if Suppressed(flags, k) then 0
            else CountRecordsOfKind(change.files, k)
  {
    var files := FilesOnly(change.files);
    CountKindAppend(FileEvents(change.root, files, flags), RenameEvent(change.root, files), k);
    FileEventsCount(change.root, files, flags, k);
    FilesOnlyCount(change.files, k);
  }

  /** The loop's events split around any one record. */
  lemma FileEventsSplit(root: string, files: seq<FileRecord>, i: nat, flags: IgnoreFlags)
    requires i < |files|
    ensures FileEvents(root, files, flags)
         == FileEvents(root, files[..i], flags) + (FileEvent(root, files[i], flags) + FileEvents(root, files[i + 1..], flags))
  {
    var pre, post := files[..i], files[i..];
    assert files == pre + post;
    FileEventsAppend(root, pre, post, flags);
    assert post[0] == files[i] && post[1..] == files[i + 1..];
  }

  /** The i-th file record of a batch fires exactly its own FileEvent, after
      the events of the file records before it and before those of the file
      records after it; the rename, if any, comes after all of them. */
  lemma RecordEvents(change: FileChange, flags: IgnoreFlags, i: nat)
    requires i < |FilesOnly(change.files)|
    ensures BatchEvents(change, flags)
         == FileEvents(change.root, FilesOnly(change.files)[..i], flags)
            + FileEvent(change.root, FilesOnly(change.files)[i], flags)
            + FileEvents(change.root, FilesOnly(change.files)[i + 1..], flags)
            + RenameEvent(change.root, FilesOnly(change.files))
  {
    FileEventsSplit(change.root, FilesOnly(change.files), i, flags);
  }

  /** Rename inference: a batch fires a Renamed event exactly when its file
      records form the rename window, under any flags. No event but the last
      can be a Renamed; when there is one, it is the last event and goes from
      the first file record's uri to the second's. */
  lemma RenameInference(change: FileChange, flags: IgnoreFlags)
    ensures (exists j :: 0 <= j < |BatchEvents(change, flags)| && BatchEvents(change, flags)[j].Renamed?)
            <==> IsRename(FilesOnly(change.files))
    ensures forall j :: 0 <= j < |BatchEvents(change, flags)| - 1 ==> !BatchEvents(change, flags)[j].Renamed?
    ensures IsRename(FilesOnly(change.files)) ==>
      var events := BatchEvents(change, flags);
      var files := FilesOnly(change.files);
      |events| > 0 && events[|events| - 1] == Renamed(Join(change.root, files[0].name), Join(change.root, files[1].name))
  {
    var files := FilesOnly(change.files);
    var events := BatchEvents(change, flags);
    var loop := FileEvents(change.root, files, flags);
    CountKindZero(loop, Rename);
    assert forall j :: 0 <= j < |loop| ==> events[j] == loop[j];
    if IsRename(files) {
      assert events[|events| - 1].Renamed?;
    } else {
      assert events == loop;
    }
  }

  /** A record that is not a plain file changes nothing, wherever it stands:
      it fires no event and takes no place in the rename window. */
  lemma NonFileRecordIgnored(root: string, before: seq<FileRecord>, d: FileRecord, after: seq<FileRecord>, flags: IgnoreFlags)
    requires !IsFile(d)
    ensures BatchEvents(FileChange(root, before + [d] + after), flags)
         == BatchEvents(FileChange(root, before + after), flags)
  {
    FilesOnlyAppend(before + [d], after);
    FilesOnlyAppend(before, [d]);
    FilesOnlyAppend(before, after);
    assert [d][1..] == [];
    assert FilesOnly([d]) == [];
    assert FilesOnly(before + [d]) == FilesOnly(before);
  }

  /** The filter keeps exactly the file records. */
  lemma {:induction false} FilesOnlyMembers(files: seq<FileRecord>, f: FileRecord)
    ensures f in FilesOnly(files) <==> f in files && IsFile(f)
  {
    if files != [] {
      FilesOnlyMembers(files[1..], f);
      assert files == [files[0]] + files[1..];
    }
  }

  /** A batch of directories and other non-file records fires nothing. */
  lemma NoFileNoEvent(change: FileChange, flags: IgnoreFlags)
    requires forall i :: 0 <= i < |change.files| ==> !IsFile(change.files[i])
    ensures BatchEvents(change, flags) == []
  {
    var files := FilesOnly(change.files);
    if files != [] {
      FilesOnlyMembers(change.files, files[0]);
    }
  }

  /** Single-record batches: a missing file is deleted, an empty file is
      created, and a suppressed creation fires nothing. */
  lemma SingleRecordScenarios(root: string)
    ensures BatchEvents(FileChange(root, [FileRecord("a.txt", false, 0, "f")]), IgnoreFlags(false, false, false))
         == [Deleted(Join(root, "a.txt"))]
    ensures BatchEvents(FileChange(root, [FileRecord("b.txt", true, 0, "f")]), IgnoreFlags(false, false, false))
         == [Created(Join(root, "b.txt"))]
    ensures BatchEvents(FileChange(root, [FileRecord("b.txt", true, 0, "f")]), IgnoreFlags(true, false, false))
         == []
  {
  }

  /** A deletion and a creation of equal size in one batch fire a Deleted, a
      Changed (the new file is not empty) and a Renamed; with different sizes
      the Renamed is missing. */
  lemma RenameScenarios(root: string)
    ensures var oldFile := FileRecord("old.txt", false, 100, "f");
      BatchEvents(FileChange(root, [oldFile, FileRecord("new.txt", true, 100, "f")]), IgnoreFlags(false, false, false))
        == [Deleted(Join(root, "old.txt")), Changed(Join(root, "new.txt")),
            Renamed(Join(root, "old.txt"), Join(root, "new.txt"))]
    ensures var oldFile := FileRecord("old.txt", false, 100, "f");
      BatchEvents(FileChange(root, [oldFile, FileRecord("new.txt", true, 150, "f")]), IgnoreFlags(false, false, false))
        == [Deleted(Join(root, "old.txt")), Changed(Join(root, "new.txt"))]
  {
    var flags := IgnoreFlags(false, false, false);
    var oldFile := FileRecord("old.txt", false, 100, "f");
    var newFiles := [FileRecord("new.txt", true, 100, "f"), FileRecord("new.txt", true, 150, "f")];
    forall n | n in newFiles
      ensures BatchEvents(FileChange(root, [oldFile, n]), flags)
           == [Deleted(Join(root, "old.txt")), Changed(Join(root, "new.txt"))] + RenameEvent(root, [oldFile, n])
    {
      assert [oldFile, n][1..] == [n] && [n][1..] == [];
      assert FilesOnly([oldFile, n]) == [oldFile, n];
      assert FileEvents(root, [oldFile, n], flags) == FileEvent(root, oldFile, flags) + FileEvents(root, [n], flags);
    }
  }

  /** A directory record between the two halves of a rename does not break
      the rename window; with every flag set only the Renamed fires. */
  lemma DirectoryInRenameScenario(root: string)
    ensures BatchEvents(FileChange(root, [FileRecord("old.txt", false, 100, "f"),
                                          FileRecord("dir", true, 4096, "d"),
                                          FileRecord("new.txt", true, 100, "f")]),
                        IgnoreFlags(true, true, true))
         == [Renamed(Join(root, "old.txt"), Join(root, "new.txt"))]
  {
    var flags := IgnoreFlags(true, true, true);
    var oldFile := FileRecord("old.txt", false, 100, "f");
    var newFile := FileRecord("new.txt", true, 100, "f");
    var dir := FileRecord("dir", true, 4096, "d");
    NonFileRecordIgnored(root, [oldFile], dir, [newFile], flags);
    assert [oldFile] + [dir] + [newFile] == [oldFile, dir, newFile];
    assert [oldFile] + [newFile] == [oldFile, newFile];
    assert [oldFile, newFile][1..] == [newFile] && [newFile][1..] == [];
    assert FilesOnly([oldFile, newFile]) == [oldFile, newFile];
    assert FileEvents(root, [oldFile, newFile], flags) == FileEvent(root, oldFile, flags) + FileEvents(root, [newFile], flags);
  }
}
