/** Backup and restore: an archive of the database and data files, and an all-or-nothing replacement of both. */
module Restore {
  import opened Common

  type Byte = bv8
  type Bytes = seq<Byte>

  const DATABASE: string := "icpc.db"
  const DATA: string := "data/"
  const MAX_TOTAL: int := 50 * 1024 * 1024 * 1024

  /** A file in the data directory, by its path relative to it. */
  datatype Node = Node(regular: bool, content: Bytes)
  type Tree = map<string, Node>

  /** An archive entry with the size it declares and what its stream holds; `readable` says whether unpacking it to disk
      succeeds. */
  datatype Entry = Entry(name: string, declared: nat, content: Bytes, regular: bool, readable: bool)
  datatype Manifest = Manifest(version: int, files: map<string, string>)

  /** One entry of the manifest's name: not to be decoded, or the fields it has. Files that are present and null discard
      those listed before. */
  datatype Listing = Missing | Null | Listed(files: map<string, string>)
  datatype ManifestPart = Broken | Part(version: Option<int>, listing: Listing)

  /** Any number of manifest entries, and the other entries in their order. */
  datatype Archive = Archive(manifests: seq<ManifestPart>, entries: seq<Entry>)

  /** What stands at the two places, the database's journals by their extension, and what was moved aside. */
  datatype Disk = Disk(db: Option<Bytes>, data: Option<Tree>, journals: map<string, Bytes>,
                       oldDb: Option<Bytes>, oldData: Option<Tree>, oldJournals: map<string, Bytes>)

  /** Which renames succeed: moving aside, moving in, moving back after a failure, and moving each journal aside. */
  datatype Renames = Renames(dbAside: bool, dataAside: bool, dbIn: bool, dataIn: bool, dbBack: bool, dataBack: bool,
                             journalAside: string -> bool)

  /** All manifest entries are decoded into the same value, one after another. */
  function Merged(manifest: Manifest, part: ManifestPart): Manifest
    requires part.Part?
  {
    Manifest(if part.version.Some? then part.version.value else manifest.version,
             match part.listing
             case Missing => manifest.files
             case Null => map[]
             case Listed(files) => manifest.files + files)
  }

  function ManifestOfParts(parts: seq<ManifestPart>): Option<Manifest> {
    if parts == [] then Some(Manifest(0, map[]))
    else
      var before, last := ManifestOfParts(parts[..|parts| - 1]), parts[|parts| - 1];
      if before.None? || last.Broken? then None else Some(Merged(before.value, last))
  }

  // ----- Names -----

  /** The path components, as separated by slashes. */
  function Parts(path: string): (parts: seq<string>)
    ensures parts != []
    ensures forall i :: 0 <= i < |parts| ==> '/' !in parts[i]
  {
    if path == "" then [""]
    else
      var rest := Parts(path[1..]);
      if path[0] == '/' then [""] + rest else [[path[0]] + rest[0]] + rest[1..]
  }

  predicate StartsWith(path: string, prefix: string) {
    prefix <= path
  }

  predicate ParentStepAt(path: string, i: nat) {
    i + 3 <= |path| && path[i..i + 3] == "../"
  }

  predicate HasParentStep(path: string) {
    exists i :: 0 <= i < |path| && ParentStepAt(path, i)
  }

  /** A path that path cleaning leaves alone: no empty, "." or ".." component. */
  predicate Clean(path: string) {
    forall i :: 0 <= i < |Parts(path)| ==> Parts(path)[i] != "" && Parts(path)[i] != "." && Parts(path)[i] != ".."
  }

  predicate EntryNameAllowed(name: string) {
    (name == DATABASE || StartsWith(name, DATA)) && Clean(name) && '\\' !in name && !HasParentStep(name)
  }

  predicate Hidden(part: string) {
    part != "" && part[0] == '.'
  }

  predicate EndsWithTmp(part: string) {
    |part| >= 4 && part[|part| - 4..] == ".tmp"
  }

  /** Whether a backup takes a data file: regular, not hidden or temporary, not below a hidden directory, and uploads
      only if wanted. */
  predicate Kept(path: string, node: Node, uploads: bool) {
    var parts := Parts(path);
    && node.regular && (forall i :: 0 <= i < |parts| ==> !Hidden(parts[i])) && !EndsWithTmp(parts[|parts| - 1])
    && (uploads || |parts| == 1 || parts[0] != "uploads")
  }

  /** The walk through the data directory enters this directory: neither it nor one above is hidden or, unless wanted,
      the uploads. */
  predicate Enters(dirs: seq<string>, uploads: bool) {
    dirs == [] || (Enters(dirs[..|dirs| - 1], uploads) && !Hidden(dirs[|dirs| - 1])
                   && (uploads || dirs != ["uploads"]))
  }

  lemma {:induction false} EntersIs(dirs: seq<string>, uploads: bool)
    ensures Enters(dirs, uploads) <==>
              (forall i :: 0 <= i < |dirs| ==> !Hidden(dirs[i])) && (uploads || dirs == [] || dirs[0] != "uploads")
  {
    if dirs != [] {
      EntersIs(dirs[..|dirs| - 1], uploads);
      assert |dirs| == 1 && dirs[0] == "uploads" ==> dirs == ["uploads"];
    }
  }

  /** What is kept is what the walk comes to: the regular files, not hidden or temporary, in directories it enters. */
  lemma KeptIsWalked(path: string, node: Node, uploads: bool)
    ensures var dirs, name := Parts(path)[..|Parts(path)| - 1], Parts(path)[|Parts(path)| - 1];
            Kept(path, node, uploads) <==>
              node.regular && Enters(dirs, uploads) && !Hidden(name) && !(|name| >= 4 && name[|name| - 4..] == ".tmp")
  {
    var parts := Parts(path);
    EntersIs(parts[..|parts| - 1], uploads);
    var dirs := parts[..|parts| - 1];
    assert forall i :: 0 <= i < |dirs| ==> dirs[i] == parts[i];
    assert |parts| == 1 || dirs[0] == parts[0];
    hide Hidden, Parts, Enters;
    assert (forall i :: 0 <= i < |parts| ==> !Hidden(parts[i])) <==>
             (forall i :: 0 <= i < |dirs| ==> !Hidden(dirs[i])) && !Hidden(parts[|dirs|]);
  }

  // ----- Backup -----

  function KeptFiles(tree: Tree, uploads: bool): map<string, Bytes> {
    map path | path in tree && Kept(path, tree[path], uploads) :: tree[path].content
  }

  /** The archive of a database and the given data paths, in the order they are walked. */
  function Archived(db: Bytes, files: map<string, Bytes>, order: seq<string>, sha: Bytes -> string): Archive
    requires forall path :: path in order ==> path in files
  {
    Archive([Part(Some(1), Listed(ManifestOf(db, files, order, sha)))],
            [Packed(DATABASE, db)]
                + seq(|order|, i requires 0 <= i < |order| => Packed(DATA + order[i], files[order[i]])))
  }

  function Packed(name: string, content: Bytes): Entry {
    Entry(name, |content|, content, true, true)
  }

  function ManifestOf(db: Bytes, files: map<string, Bytes>, order: seq<string>,
                      sha: Bytes -> string): map<string, string>
    requires forall path :: path in order ==> path in files
  {
    if order == [] then map[DATABASE := sha(db)]
    else ManifestOf(db, files, order[..|order| - 1], sha)[DATA + order[|order| - 1] := sha(files[order[|order| - 1]])]
  }

  /** The database, or a path below the data directory with ordinary components only. */
  ghost predicate SafeName(name: string) {
    && '\\' !in name && (forall part :: part in Parts(name) ==> part !in {"", ".", ".."})
    && (name == "icpc.db" || (|name| > 5 && name[..5] == "data/"))
  }

  class BackupWriter {
    const sha: Bytes -> string
    var manifest: map<string, string>
    var entries: seq<Entry>

    constructor (sha: Bytes -> string)
      ensures this.sha == sha && manifest == map[] && entries == []
    {
      this.sha, manifest, entries := sha, map[], [];
    }

    method Add(name: string, content: Bytes)
      modifies this
      ensures entries == old(entries) + [Packed(name, content)]
              && manifest == old(manifest)[name := sha(content)]
    {
      entries := entries + [Packed(name, content)];
      manifest := manifest[name := sha(content)];
    }

    /** Walks the data directory in the given order and archives what is kept. */
    method WriteBackup(db: Bytes, tree: Tree, walk: seq<string>, uploads: bool)
      returns (archive: Archive, ghost order: seq<string>)
      requires manifest == map[] && entries == [] && Distinct(walk) && forall path :: path in walk <==> path in tree
      modifies this
      ensures Distinct(order) && (forall path :: path in order <==> path in KeptFiles(tree, uploads))
      ensures archive == Archived(db, KeptFiles(tree, uploads), order, sha)
    {
      ghost var files := KeptFiles(tree, uploads);
      Add(DATABASE, db);
      order := [];
      assert entries == Archived(db, files, order, sha).entries && manifest == ManifestOf(db, files, order, sha);
      hide Kept, ManifestOf, Archived, Distinct;
      assert Distinct(order);
      for n := 0 to |walk|
        invariant Distinct(order) && (forall path :: path in order <==> path in files && path in walk[..n])
        invariant entries == Archived(db, files, order, sha).entries && manifest == ManifestOf(db, files, order, sha)
      {
        var path := walk[n];
        NextPath(walk, n);
        if Kept(path, tree[path], uploads) {
          ArchiveOneMore(db, files, order, path, sha);
          NewStaysDistinct(order, path);
          order := order + [path];
          Add(DATA + path, tree[path].content);
        }
      }
      assert walk[..|walk|] == walk;
      archive := Archive([Part(Some(1), Listed(manifest))], entries);
      ArchiveIs(db, files, order, sha);
    }
  }

  lemma NextPath(walk: seq<string>, n: nat)
    requires Distinct(walk) && n < |walk|
    ensures walk[n] in walk && walk[n] !in walk[..n] && forall path :: path in walk[..n + 1] <==>
              path in walk[..n] || path == walk[n]
  {
    assert walk[..n + 1] == walk[..n] + [walk[n]];
  }

  lemma NewStaysDistinct(order: seq<string>, path: string)
    requires Distinct(order) && path !in order
    ensures Distinct(order + [path])
  {
  }

  lemma ArchiveIs(db: Bytes, files: map<string, Bytes>, order: seq<string>, sha: Bytes -> string)
    requires forall p :: p in order ==> p in files
    ensures Archived(db, files, order, sha)
            == Archive([Part(Some(1), Listed(ManifestOf(db, files, order, sha)))],
                       Archived(db, files, order, sha).entries)
  {
    hide ManifestOf;
  }

  lemma ArchiveOneMore(db: Bytes, files: map<string, Bytes>, order: seq<string>, path: string, sha: Bytes -> string)
    requires (forall p :: p in order ==> p in files) && path in files
    ensures Archived(db, files, order + [path], sha).entries
              == Archived(db, files, order, sha).entries + [Packed(DATA + path, files[path])]
    ensures ManifestOf(db, files, order + [path], sha)
              == ManifestOf(db, files, order, sha)[DATA + path := sha(files[path])]
  {
    assert (order + [path])[..|order|] == order;
  }

  // ----- Restore -----

  const UINT64: int := 0x1_0000_0000_0000_0000
  const INT64_MAX: int := 0x7fff_ffff_ffff_ffff

  /** How many bytes are copied at most: one more than declared, as a signed number. */
  function ReadLimit(declared: nat): nat {
    if declared < INT64_MAX then declared + 1 else 0
  }

  /** What arrives on disk. */
  function Copied(e: Entry): Bytes {
    if |e.content| <= ReadLimit(e.declared) then e.content else e.content[..ReadLimit(e.declared)]
  }

  predicate EntryGood(e: Entry, manifest: Manifest, sha: Bytes -> string) {
    EntryNameAllowed(e.name) && e.regular && e.readable && e.name in manifest.files
        && sha(Copied(e)) == manifest.files[e.name]
  }

  /** The declared sizes are added as unsigned 64-bit numbers. */
  function Total(entries: seq<Entry>): nat {
    if entries == [] then 0 else (Total(entries[..|entries| - 1]) + entries[|entries| - 1].declared) % UINT64
  }

  /** The sum is looked at after each entry. */
  predicate WithinLimit(entries: seq<Entry>) {
    entries == [] || (WithinLimit(entries[..|entries| - 1]) && Total(entries) <= MAX_TOTAL)
  }

  function Sizes(entries: seq<Entry>): nat {
    if entries == [] then 0 else Sizes(entries[..|entries| - 1]) + entries[|entries| - 1].declared
  }

  function Written(entries: seq<Entry>): nat {
    if entries == [] then 0 else Written(entries[..|entries| - 1]) + |Copied(entries[|entries| - 1])|
  }

  predicate CanWrap(e: Entry) {
    e.declared >= UINT64 - MAX_TOTAL
  }

  /** Unless an entry declares so large a size that the sum wraps around, the limit is on the sum of the sizes, and what
      is written is no more than that, except for a byte per entry. */
  lemma {:induction false} LimitIsOnTheSum(entries: seq<Entry>)
    requires forall e :: e in entries ==> !CanWrap(e)
    ensures WithinLimit(entries) <==> Sizes(entries) <= MAX_TOTAL
    ensures WithinLimit(entries) ==> Total(entries) == Sizes(entries) && Written(entries) <= MAX_TOTAL + |entries|
    ensures Written(entries) <= Sizes(entries) + |entries|
  {
    if entries != [] {
      LimitIsOnTheSum(entries[..|entries| - 1]);
      assert entries[|entries| - 1] in entries;
    }
  }

  lemma {:induction false} NoneIsLarger(entries: seq<Entry>, e: Entry)
    requires e in entries
    ensures e.declared <= Sizes(entries)
  {
    var last := |entries| - 1;
    if e != entries[last] {
      assert e in entries[..last];
      NoneIsLarger(entries[..last], e);
    }
  }

  /** Entries that pass the limit keep to it in sum if and only if none of them declares so large a size. */
  lemma LimitHoldsExactlyWhen(entries: seq<Entry>)
    requires WithinLimit(entries)
    ensures Sizes(entries) <= MAX_TOTAL <==> forall e :: e in entries ==> !CanWrap(e)
  {
    if forall e :: e in entries ==> !CanWrap(e) {
      LimitIsOnTheSum(entries);
    } else {
      var e :| e in entries && CanWrap(e);
      NoneIsLarger(entries, e);
    }
  }

  /** Two entries whose sum wraps around pass. */
  lemma LimitCanWrap(a: Entry, b: Entry)
    requires a.declared == 1 && b.declared == UINT64 - 1
    ensures WithinLimit([a, b]) && Sizes([a, b]) > MAX_TOTAL
  {
    assert [a, b][..1] == [a] && [a][..0] == [];
    assert Total([a]) == 1 && Total([a, b]) == 0;
  }

  function Names(entries: seq<Entry>): seq<string> {
    seq(|entries|, i requires 0 <= i < |entries| => entries[i].name)
  }

  ghost predicate AllGood(entries: seq<Entry>, manifest: Manifest, sha: Bytes -> string) {
    && (forall i :: 0 <= i < |entries| ==> EntryGood(entries[i], manifest, sha))
    && Distinct(Names(entries)) && WithinLimit(entries)
  }

  /** The archive is whole: exactly the manifest's files, each once, with its digest, and not too large. */
  ghost predicate Whole(archive: Archive, sha: Bytes -> string) {
    && ManifestOfParts(archive.manifests).Some?
    && var manifest := ManifestOfParts(archive.manifests).value;
    && manifest.version == 1 && Get(manifest.files, DATABASE, "") != ""
    && AllGood(archive.entries, manifest, sha)
    && (forall name :: name in manifest.files ==> name in Names(archive.entries))
  }

  function Staged(entries: seq<Entry>): map<string, Bytes> {
    if entries == [] then map[]
    else Staged(entries[..|entries| - 1])[entries[|entries| - 1].name := Copied(entries[|entries| - 1])]
  }

  function DataPaths(staged: map<string, Bytes>): (paths: set<string>)
    ensures forall path :: path in paths <==> DATA + path in staged
  {
    assert forall name :: StartsWith(name, DATA) ==> name == DATA + name[|DATA|..];
    assert forall path :: path == (DATA + path)[|DATA|..];
    set name | name in staged && StartsWith(name, DATA) :: name[|DATA|..]
  }

  /** The data directory that the staged files make up. */
  function DataOf(staged: map<string, Bytes>): Tree {
    map path | path in DataPaths(staged) :: Node(true, staged[DATA + path])
  }

  lemma {:induction false} StagedAre(entries: seq<Entry>)
    requires Distinct(Names(entries))
    ensures forall name :: name in Staged(entries) <==> name in Names(entries)
    ensures forall i :: 0 <= i < |entries| ==>
              entries[i].name in Staged(entries) && Staged(entries)[entries[i].name] == Copied(entries[i])
  {
    if entries != [] {
      var n := |entries| - 1;
      var front, staged := entries[..n], Staged(entries[..n]);
      FrontNames(entries);
      StagedAre(front);
      assert Staged(entries) == staged[entries[n].name := Copied(entries[n])];
      hide Names, Copied, Staged, Distinct;
      forall i | 0 <= i < |entries|
        ensures entries[i].name in Staged(entries) && Staged(entries)[entries[i].name] == Copied(entries[i])
      {
        if i < n {
          assert front[i] == entries[i] && entries[i].name in staged && entries[i].name != entries[n].name;
        }
      }
    }
  }

  lemma FrontNames(entries: seq<Entry>)
    requires entries != [] && Distinct(Names(entries))
    ensures var front, n := entries[..|entries| - 1], |entries| - 1;
            && Distinct(Names(front)) && |Names(entries)| == |entries|
            && (forall i :: 0 <= i < |entries| ==> Names(entries)[i] == entries[i].name)
            && (forall name :: name in Names(entries) <==> name in Names(front) || name == entries[n].name)
            && (forall i :: 0 <= i < n ==> entries[i].name != entries[n].name)
  {
    var front := entries[..|entries| - 1];
    assert Names(entries) == Names(front) + [entries[|front|].name];
    assert forall i :: 0 <= i < |front| ==> Names(front)[i] == Names(entries)[i];
    assert forall i :: 0 <= i < |front| ==> Names(entries)[i] != Names(entries)[|front|];
  }

  /** The archive is whole and its database sound. */
  ghost predicate Restorable(archive: Archive, sha: Bytes -> string, integrity: Bytes -> bool) {
    Whole(archive, sha) && DATABASE in Staged(archive.entries) && integrity(Staged(archive.entries)[DATABASE])
  }

  /** Every rename that is needed for `disk` to be replaced succeeds. */
  predicate Replaceable(disk: Disk, renames: Renames) {
    (disk.db.Some? ==> renames.dbAside) && (disk.data.Some? ==> renames.dataAside) && renames.dbIn && renames.dataIn
  }

  /** What had been moved aside when a rename failed could be moved back: the database unless it was not moved, the data
      unless it was not moved or never came to be. */
  predicate Undone(disk: Disk, renames: Renames) {
    && (disk.db.Some? ==> !renames.dbAside || renames.dbBack)
    && (disk.data.Some? ==>
        (disk.db.Some? && !renames.dbAside) || !renames.dataAside || renames.dataBack)
  }

  /** What was there is still there: in its place, or aside because it could not be moved back. */
  predicate StillThere<T(==)>(before: Option<T>, now: Option<T>, aside: Option<T>) {
    (now == before && aside == None) || (now == None && aside == before)
  }

  function JournalsAside(disk: Disk, journalAside: string -> bool): Disk {
    var moved := set extension | extension in {"-wal", "-shm"} && extension in disk.journals && journalAside(extension);
    disk.(journals := disk.journals - moved, oldJournals := map extension | extension in moved ::
          disk.journals[extension])
  }

  /** Decodes every manifest entry there is. */
  method ReadManifest(parts: seq<ManifestPart>) returns (manifest: Option<Manifest>)
    ensures manifest == ManifestOfParts(parts)
  {
    var m := Manifest(0, map[]);
    for n := 0 to |parts|
      invariant ManifestOfParts(parts[..n]) == Some(m)
    {
      assert parts[..n + 1][..n] == parts[..n];
      if parts[n].Broken? {
        BrokenStays(parts, n);
        return None;
      }
      if parts[n].version.Some? {
        m := m.(version := parts[n].version.value);
      }
      match parts[n].listing {
        case Missing =>
        case Null => m := m.(files := map[]);
        case Listed(files) => m := m.(files := m.files + files);
      }
    }
    assert parts[..|parts|] == parts;
    return Some(m);
  }

  lemma {:induction false} BrokenStays(parts: seq<ManifestPart>, n: nat)
    requires n < |parts| && parts[n].Broken?
    ensures ManifestOfParts(parts).None?
  {
    if n < |parts| - 1 {
      BrokenStays(parts[..|parts| - 1], n);
    }
  }

  lemma GoodNamesAreSafe(entries: seq<Entry>, manifest: Manifest, sha: Bytes -> string)
    requires AllGood(entries, manifest, sha)
    ensures forall name :: name in Names(entries) ==> SafeName(name)
  {
    forall name | name in Names(entries) ensures SafeName(name) {
      var i :| 0 <= i < |entries| && Names(entries)[i] == name;
      assert EntryGood(entries[i], manifest, sha);
      hide Distinct, WithinLimit;
      AllowedIsSafe(name);
    }
  }

  lemma AllowedIsSafe(name: string)
    requires EntryNameAllowed(name)
    ensures SafeName(name)
  {
    assert name == DATA ==> Parts(name)[1] == "" by {
      PartsBelow("data", "");
      assert "data" + "/" + "" == DATA;
    }
  }

  /** Both journals are moved aside where that succeeds, and no other. */
  lemma JournalsMove(disk: Disk, journalAside: string -> bool, e: string)
    ensures var t := JournalsAside(disk, journalAside);
            var moves := (e == "-wal" || e == "-shm") && e in disk.journals && journalAside(e);
            && (e in t.journals <==> e in disk.journals && !moves) && (e in t.oldJournals <==> moves)
            && (e in t.journals ==> t.journals[e] == disk.journals[e])
            && (moves ==> t.oldJournals[e] == disk.journals[e]) && t.db == disk.db && t.data == disk.data
  {
  }

  class Server {
    var disk: Disk

    /** Unpacks the archive next to the database, checking every entry. */
    method Stage(archive: Archive, sha: Bytes -> string) returns (staged: Option<map<string, Bytes>>)
      ensures staged.Some? <==> Whole(archive, sha)
      ensures staged.Some? ==> staged.value == Staged(archive.entries)
      ensures staged.Some? ==> forall name :: name in staged.value ==> SafeName(name)
    {
      var read := ReadManifest(archive.manifests);
      if read.None? {
        return None;
      }
      var manifest, entries := read.value, archive.entries;
      if manifest.version != 1 || Get(manifest.files, DATABASE, "") == "" {
        return None;
      }
      var files: map<string, Bytes> := map[];
      var total: nat := 0;
      NothingChecked(entries, manifest, sha);
      hide EntryGood, Checked, AllGood, SafeName;
      for n := 0 to |entries|
        invariant Checked(entries, n, manifest, sha, total, files)
      {
        var e := entries[n];
        if e.name in files || !EntryGood(e, manifest, sha) {
          RefusedEntry(entries, n, manifest, sha, total, files);
          return None;
        }
        total := (total + e.declared) % UINT64;
        if total > MAX_TOTAL {
          OverLimit(entries, n, manifest, sha, files, total);
          return None;
        }
        OneMoreChecked(entries, n, manifest, sha, files, total);
        files := files[e.name := Copied(e)];
      }
      AllChecked(entries, manifest, sha, total, files);
      GoodNamesAreSafe(entries, manifest, sha);
      hide Staged, Names;
      var complete := SameKeys(files.Keys, manifest.files.Keys);
      return if complete then Some(files) else None;
    }

    /** Replaces database and data by the archive's and moves the journals aside, or leaves everything as it is; what is
        replaced is kept aside. If a rename fails while the old files are moved back, they are still there, aside. */
    method RestoreBackup(archive: Archive, sha: Bytes -> string, integrity: Bytes -> bool, renames: Renames)
      returns (ok: bool)
      requires disk.oldDb.None? && disk.oldData.None? && disk.oldJournals == map[]
      modifies this
      ensures ok <==> Restorable(archive, sha, integrity) && Replaceable(old(disk), renames)
      ensures !ok ==> (disk == old(disk) <==> !Restorable(archive, sha, integrity) || Undone(old(disk), renames))
      ensures !ok ==> disk.journals == old(disk).journals && disk.oldJournals == map[]
      ensures !ok ==>
                StillThere(old(disk).db, disk.db, disk.oldDb) && StillThere(old(disk).data, disk.data, disk.oldData)
      ensures ok ==>
                disk == JournalsAside(Disk(Some(Staged(archive.entries)[DATABASE]),
                                           Some(DataOf(Staged(archive.entries))), old(disk).journals,
                                                old(disk).db, old(disk).data, map[]), renames.journalAside)
    {
      var staged := Stage(archive, sha);
      if staged.None? {
        return false;
      }
      if DATABASE !in staged.value || !integrity(staged.value[DATABASE]) {
        return false;
      }
      hide Whole, Staged, DataOf;
      ok := ReplaceBy(staged.value[DATABASE], DataOf(staged.value), renames);
    }

    /** Moves what is there aside and the new files in, then the journals aside; the first rename that fails undoes the
        rest. */
    method ReplaceBy(db: Bytes, data: Tree, renames: Renames) returns (ok: bool)
      requires disk.oldDb.None? && disk.oldData.None? && disk.oldJournals == map[]
      modifies this
      ensures ok <==> Replaceable(old(disk), renames)
      ensures !ok ==> (disk == old(disk) <==> Undone(old(disk), renames))
      ensures !ok ==> disk.journals == old(disk).journals && disk.oldJournals == map[]
      ensures !ok ==>
                StillThere(old(disk).db, disk.db, disk.oldDb) && StillThere(old(disk).data, disk.data, disk.oldData)
      ensures ok ==>
                disk == JournalsAside(Disk(Some(db), Some(data), old(disk).journals, old(disk).db, old(disk).data,
                                           map[]), renames.journalAside)
    {
      hide JournalsAside;
      if disk.db.Some? {
        if !renames.dbAside {
          return false;
        }
        disk := disk.(oldDb := disk.db, db := None);
      }
      if disk.data.Some? {
        if !renames.dataAside {
          if disk.oldDb.Some? && renames.dbBack {
            disk := disk.(db := disk.oldDb, oldDb := None);
          }
          return false;
        }
        disk := disk.(oldData := disk.data, data := None);
      }
      if renames.dbIn {
        disk := disk.(db := Some(db));
        if renames.dataIn {
          disk := disk.(data := Some(data));
          MoveJournals(renames.journalAside);
          return true;
        }
      }
      disk := disk.(db := None);
      if disk.oldDb.Some? && renames.dbBack {
        disk := disk.(db := disk.oldDb, oldDb := None);
      }
      if disk.oldData.Some? && renames.dataBack {
        disk := disk.(data := disk.oldData, oldData := None);
      }
      return false;
    }

    method MoveJournals(journalAside: string -> bool)
      requires disk.oldJournals == map[]
      modifies this
      ensures disk == JournalsAside(old(disk), journalAside)
    {
      var extensions := ["-wal", "-shm"];
      ghost var moved: set<string> := {};
      for n := 0 to 2
        invariant moved == set e | e in extensions[..n] && e in old(disk).journals && journalAside(e)
        invariant disk == old(disk).(journals := old(disk).journals - moved, oldJournals := map e | e in moved ::
                                     old(disk).journals[e])
      {
        var extension := extensions[n];
        assert extensions[..n + 1] == extensions[..n] + [extension];
        if extension in disk.journals && journalAside(extension) {
          disk := disk.(oldJournals := disk.oldJournals[extension := disk.journals[extension]],
                        journals := disk.journals - {extension});
          moved := moved + {extension};
        }
      }
      assert extensions[..2] == extensions && forall e :: e in extensions <==> e in {"-wal", "-shm"};
      assert moved == set e | e in {"-wal", "-shm"} && e in old(disk).journals && journalAside(e);
    }
  }

  /** Counting settles equality once one set contains the other. */
  method SameKeys(some: set<string>, all: set<string>) returns (same: bool)
    requires some <= all
    ensures same <==> forall name :: name in all ==> name in some
  {
    same := |some| == |all|;
    if same {
      SubsetOfSameSize(some, all);
    }
    assert (forall name :: name in all ==> name in some) ==> some == all;
  }

  lemma SubsetOfSameSize(a: set<string>, b: set<string>)
    requires a <= b && |a| == |b|
    ensures a == b
  {
    assert |b - a| == |b| - |a|;
    assert b == a + (b - a);
  }

  /** The first n entries are good and staged. */
  ghost predicate Checked(entries: seq<Entry>, n: nat, manifest: Manifest, sha: Bytes -> string, total: nat,
                          files: map<string, Bytes>) {
    && n <= |entries| && AllGood(entries[..n], manifest, sha)
    && total == Total(entries[..n]) && files == Staged(entries[..n])
    && (forall name :: name in files <==> name in Names(entries[..n]))
  }

  lemma NothingChecked(entries: seq<Entry>, manifest: Manifest, sha: Bytes -> string)
    ensures Checked(entries, 0, manifest, sha, 0, map[])
  {
  }

  lemma AllChecked(entries: seq<Entry>, manifest: Manifest, sha: Bytes -> string, total: nat, files: map<string, Bytes>)
    requires Checked(entries, |entries|, manifest, sha, total, files)
    ensures AllGood(entries, manifest, sha) && files == Staged(entries) && files.Keys <= manifest.files.Keys
    ensures forall name :: name in files <==> name in Names(entries)
  {
    assert entries[..|entries|] == entries;
    UnlistedName(entries, manifest, sha);
    hide EntryGood, Names, Total, WithinLimit, Staged, Distinct;
  }

  lemma LastOf(entries: seq<Entry>, n: nat)
    requires n < |entries|
    ensures entries[..n + 1][..n] == entries[..n] && |entries[..n + 1]| == n + 1 && entries[..n + 1][n] == entries[n]
    ensures Names(entries[..n + 1]) == Names(entries[..n]) + [entries[n].name]
  {
  }

  /** A repeated name or a bad entry spoils the whole list. */
  lemma RefusedEntry(entries: seq<Entry>, n: nat, manifest: Manifest, sha: Bytes -> string, total: nat,
                     files: map<string, Bytes>)
    requires n < |entries| && Checked(entries, n, manifest, sha, total, files)
    requires entries[n].name in files || !EntryGood(entries[n], manifest, sha)
    ensures !AllGood(entries, manifest, sha)
  {
    hide EntryGood, Total, WithinLimit, Staged;
    if entries[n].name in files {
      RepeatedName(entries, n);
    }
  }

  /** So does a total over the limit. */
  lemma OverLimit(entries: seq<Entry>, n: nat, manifest: Manifest, sha: Bytes -> string, files: map<string, Bytes>,
                  total: nat)
    requires n < |entries| && total > MAX_TOTAL
    requires total == (Total(entries[..n]) + entries[n].declared) % UINT64
    ensures !AllGood(entries, manifest, sha)
  {
    LastOf(entries, n);
    assert !WithinLimit(entries[..n + 1]);
    hide EntryGood, Total, Staged, Names;
    if WithinLimit(entries) {
      LimitGrows(entries, n + 1);
    }
  }

  lemma OneMoreChecked(entries: seq<Entry>, n: nat, manifest: Manifest, sha: Bytes -> string, files: map<string, Bytes>,
                       total: nat)
    requires n < |entries| && Checked(entries, n, manifest, sha, Total(entries[..n]), files)
    requires entries[n].name !in files && EntryGood(entries[n], manifest, sha)
    requires total == (Total(entries[..n]) + entries[n].declared) % UINT64 && total <= MAX_TOTAL
    ensures Checked(entries, n + 1, manifest, sha, total, files[entries[n].name := Copied(entries[n])])
  {
    var front, more := entries[..n], entries[..n + 1];
    LastOf(entries, n);
    assert Total(more) == total && WithinLimit(more) && Staged(more) == Staged(front)[entries[n].name :=
        Copied(entries[n])];
    hide Total, WithinLimit, Staged, EntryGood, Names;
    assert forall i :: 0 <= i < n ==> more[i] == front[i];
    assert AllGood(more, manifest, sha);
  }

  lemma UnlistedName(entries: seq<Entry>, manifest: Manifest, sha: Bytes -> string)
    requires forall i :: 0 <= i < |entries| ==> EntryGood(entries[i], manifest, sha)
    ensures forall name :: name in Names(entries) ==> name in manifest.files
  {
    hide EntryNameAllowed;
    forall name | name in Names(entries) ensures name in manifest.files {
      var i :| 0 <= i < |entries| && Names(entries)[i] == name;
      assert EntryGood(entries[i], manifest, sha);
    }
  }

  lemma RepeatedName(entries: seq<Entry>, n: nat)
    requires n < |entries| && entries[n].name in Names(entries[..n])
    ensures !Distinct(Names(entries))
  {
    var i :| 0 <= i < n && Names(entries[..n])[i] == entries[n].name;
    assert Names(entries)[i] == Names(entries)[n];
  }

  lemma {:induction false} LimitGrows(entries: seq<Entry>, n: nat)
    requires n <= |entries| && WithinLimit(entries)
    ensures WithinLimit(entries[..n])
  {
    if n == |entries| {
      assert entries[..n] == entries;
    } else {
      LimitGrows(entries[..|entries| - 1], n);
      assert entries[..|entries| - 1][..n] == entries[..n];
    }
  }

  // ----- Round trip -----

  lemma {:induction false} PartsOfPlain(part: string)
    requires '/' !in part
    ensures Parts(part) == [part]
  {
    if part != "" {
      assert part[0] in part && [part[0]] + part[1..] == part;
      PartsOfPlain(part[1..]);
    }
  }

  lemma {:induction false} PartsBelow(first: string, path: string)
    requires '/' !in first
    ensures Parts(first + "/" + path) == [first] + Parts(path)
  {
    var whole := first + "/" + path;
    if first == "" {
      assert whole[1..] == path;
    } else {
      PartsBelow(first[1..], path);
      assert whole[1..] == first[1..] + "/" + path && whole[0] == first[0] && first[0] in first;
      assert [first[0]] + first[1..] == first;
    }
  }

  predicate PlainName(path: string) {
    '\\' !in DATA + path && !HasParentStep(DATA + path)
  }

  /** A data file with an ordinary path has an allowed entry name exactly if that has no backslash and no "../" in
      it. */
  lemma DataNameAllowed(path: string)
    requires Clean(path)
    ensures EntryNameAllowed(DATA + path) <==> PlainName(path)
  {
    PartsBelow("data", path);
    assert "data" + "/" + path == DATA + path;
    assert forall i :: 0 <= i < |Parts(path)| ==> (["data"] + Parts(path))[i + 1] == Parts(path)[i];
  }

  lemma DatabaseNameAllowed()
    ensures EntryNameAllowed(DATABASE)
  {
    PartsOfPlain(DATABASE);
    NoParentStep(DATABASE);
    hide Parts, HasParentStep;
  }

  lemma NoParentStep(part: string)
    requires '/' !in part
    ensures !HasParentStep(part)
  {
    forall i | 0 <= i < |part| ensures !ParentStepAt(part, i) {
      assert i + 3 <= |part| ==> part[i..i + 3][2] == part[i + 2];
    }
  }

  lemma {:induction false} ManifestIs(db: Bytes, files: map<string, Bytes>, order: seq<string>, sha: Bytes -> string)
    requires Distinct(order) && forall path :: path in order ==> path in files
    ensures var m := ManifestOf(db, files, order, sha);
            && (forall name :: name in m <==>
                name == DATABASE || exists i :: 0 <= i < |order| && name == DATA + order[i])
            && m[DATABASE] == sha(db) && forall i :: 0 <= i < |order| ==> m[DATA + order[i]] == sha(files[order[i]])
  {
    if order != [] {
      var front := order[..|order| - 1];
      ManifestIs(db, files, front, sha);
      forall i | 0 <= i < |front| ensures DATA + front[i] != DATA + order[|front|] {
        DataPathsDiffer(front[i], order[|front|]);
      }
      DataIsNotDatabase(order[|front|]);
      OneMoreInManifest(db, files, order, sha);
      hide ManifestOf, Distinct;
      assert forall i :: 0 <= i < |front| ==> front[i] == order[i];
    }
  }

  lemma OneMoreInManifest(db: Bytes, files: map<string, Bytes>, order: seq<string>, sha: Bytes -> string)
    requires order != [] && forall path :: path in order ==> path in files
    ensures var last := order[|order| - 1];
            ManifestOf(db, files, order, sha)
                == ManifestOf(db, files, order[..|order| - 1], sha)[DATA + last := sha(files[last])]
  {
  }

  lemma DataPathsDiffer(a: string, b: string)
    requires a != b
    ensures DATA + a != DATA + b
  {
    assert (DATA + a)[|DATA|..] == a && (DATA + b)[|DATA|..] == b;
  }

  lemma DataIsNotDatabase(path: string)
    ensures DATA + path != DATABASE
  {
    assert (DATA + path)[1] == DATA[1] != DATABASE[1];
  }

  lemma NamesOfArchive(db: Bytes, files: map<string, Bytes>, order: seq<string>, sha: Bytes -> string)
    requires Distinct(order) && forall path :: path in order ==> path in files
    ensures Distinct(Names(Archived(db, files, order, sha).entries))
  {
    var entries := Archived(db, files, order, sha).entries;
    var names := Names(entries);
    assert names[0] == DATABASE && forall i :: 0 <= i < |order| ==> names[i + 1] == DATA + order[i];
    forall i, j | 0 <= i < j < |names| ensures names[i] != names[j] {
      if i == 0 {
        assert names[j] == DATA + order[j - 1] && names[j][1] == DATA[1];
      } else {
        assert names[i][|DATA|..] == order[i - 1] && names[j][|DATA|..] == order[j - 1];
      }
    }
  }

  /** A file's length is a signed 64-bit number, and no file is as long as the largest of them. */
  predicate Storable(content: Bytes) {
    |content| < INT64_MAX
  }

  /** The manifest a backup gets. */
  function ManifestFor(db: Bytes, files: map<string, Bytes>, order: seq<string>, sha: Bytes -> string): Manifest
    requires forall path :: path in order ==> path in files
  {
    Manifest(1, ManifestOf(db, files, order, sha))
  }

  lemma ArchivedManifest(db: Bytes, files: map<string, Bytes>, order: seq<string>, sha: Bytes -> string)
    requires forall path :: path in order ==> path in files
    ensures ManifestOfParts(Archived(db, files, order, sha).manifests) == Some(ManifestFor(db, files, order, sha))
  {
    var parts := Archived(db, files, order, sha).manifests;
    assert parts[..0] == [] && parts[..|parts| - 1] == parts[..0];
    hide ManifestOf;
    assert (map[] + ManifestOf(db, files, order, sha)) == ManifestOf(db, files, order, sha);
  }

  /** An entry of a stored file is good exactly if its name is allowed. */
  lemma PackedIsGood(name: string, content: Bytes, manifest: Manifest, sha: Bytes -> string)
    requires Storable(content) && name in manifest.files && manifest.files[name] == sha(content)
    ensures EntryGood(Packed(name, content), manifest, sha) <==> EntryNameAllowed(name)
    ensures Copied(Packed(name, content)) == content
  {
    hide EntryNameAllowed;
  }

  lemma ArchivedFileGood(db: Bytes, files: map<string, Bytes>, order: seq<string>, sha: Bytes -> string, i: nat)
    requires Distinct(order) && (forall path :: path in order ==> path in files) && i < |order|
    requires Clean(order[i]) && Storable(files[order[i]])
    ensures EntryGood(Packed(DATA + order[i], files[order[i]]), ManifestFor(db, files, order, sha), sha) <==>
              PlainName(order[i])
  {
    ManifestIs(db, files, order, sha);
    DataNameAllowed(order[i]);
    hide ManifestOf, EntryNameAllowed, PlainName, Clean, Distinct, EntryGood;
    PackedIsGood(DATA + order[i], files[order[i]], ManifestFor(db, files, order, sha), sha);
  }

  lemma ArchivedDatabaseGood(db: Bytes, files: map<string, Bytes>, order: seq<string>, sha: Bytes -> string)
    requires Distinct(order) && (forall path :: path in order ==> path in files) && Storable(db)
    ensures EntryGood(Packed(DATABASE, db), ManifestFor(db, files, order, sha), sha)
  {
    ManifestIs(db, files, order, sha);
    DatabaseNameAllowed();
    hide ManifestOf, EntryNameAllowed, Distinct, EntryGood;
    PackedIsGood(DATABASE, db, ManifestFor(db, files, order, sha), sha);
  }

  lemma ArchivedEntriesGood(db: Bytes, files: map<string, Bytes>, order: seq<string>, sha: Bytes -> string)
    requires Distinct(order) && (forall path :: path in order ==> path in files && Clean(path))
    requires Storable(db) && forall path :: path in order ==> Storable(files[path])
    ensures var entries, manifest := Archived(db, files, order, sha).entries, ManifestFor(db, files, order, sha);
            (forall i :: 0 <= i < |entries| ==> EntryGood(entries[i], manifest, sha)) <==>
                forall i :: 0 <= i < |order| ==> PlainName(order[i])
  {
    var entries, manifest := Archived(db, files, order, sha).entries, ManifestFor(db, files, order, sha);
    assert |entries| == |order| + 1 && entries[0] == Packed(DATABASE, db);
    assert forall i :: 0 <= i < |order| ==> entries[i + 1] == Packed(DATA + order[i], files[order[i]]);
    hide EntryGood, PlainName, Clean, Archived, ManifestFor, Distinct, Storable, Packed;
    ArchivedDatabaseGood(db, files, order, sha);
    forall i | 0 <= i < |order| ensures EntryGood(entries[i + 1], manifest, sha) <==> PlainName(order[i]) {
      ArchivedFileGood(db, files, order, sha, i);
    }
    forall i | 0 <= i < |entries| && (forall k :: 0 <= k < |order| ==> PlainName(order[k]))
      ensures EntryGood(entries[i], manifest, sha)
    {
      if i > 0 { assert PlainName(order[i - 1]) && EntryGood(entries[i - 1 + 1], manifest, sha); }
    }
  }

  lemma NameAt(db: Bytes, files: map<string, Bytes>, order: seq<string>, sha: Bytes -> string)
    requires forall path :: path in order ==> path in files
    ensures var names := Names(Archived(db, files, order, sha).entries);
            && |names| == |order| + 1 && names[0] == DATABASE
            && forall i :: 0 <= i < |order| ==> names[i + 1] == DATA + order[i]
  {
    hide ManifestOf;
  }

  lemma ManifestIsCovered(db: Bytes, files: map<string, Bytes>, order: seq<string>, sha: Bytes -> string)
    requires Distinct(order) && forall path :: path in order ==> path in files
    ensures forall name :: name in ManifestOf(db, files, order, sha) ==>
              name in Names(Archived(db, files, order, sha).entries)
  {
    var names := Names(Archived(db, files, order, sha).entries);
    ManifestIs(db, files, order, sha);
    NameAt(db, files, order, sha);
    hide ManifestOf, Names, Archived;
    forall name | name in ManifestOf(db, files, order, sha) ensures name in names {
      if name != DATABASE {
        var i :| 0 <= i < |order| && name == DATA + order[i];
        assert names[i + 1] == name;
      }
    }
  }

  lemma ArchivedLimit(db: Bytes, files: map<string, Bytes>, order: seq<string>, sha: Bytes -> string)
    requires (forall path :: path in order ==> path in files && Storable(files[path])) && Storable(db)
    ensures var entries := Archived(db, files, order, sha).entries;
            WithinLimit(entries) <==> Sizes(entries) <= MAX_TOTAL
  {
    var entries := Archived(db, files, order, sha).entries;
    forall e | e in entries ensures !CanWrap(e) {
      var i :| 0 <= i < |entries| && entries[i] == e;
      assert i > 0 ==> e == Packed(DATA + order[i - 1], files[order[i - 1]]) && order[i - 1] in order;
    }
    LimitIsOnTheSum(entries);
  }

  /** A backup can be restored exactly if it is not too large and none of its data files has a backslash or "../" in its
      name. */
  lemma BackupIsWhole(db: Bytes, files: map<string, Bytes>, order: seq<string>, sha: Bytes -> string)
    requires Distinct(order) && (forall path :: path in order <==> path in files)
             && (forall path :: path in files ==> Clean(path) && Storable(files[path])) && sha(db) != "" && Storable(db)
    ensures var archive := Archived(db, files, order, sha);
            Whole(archive, sha) <==>
                Sizes(archive.entries) <= MAX_TOTAL && forall path :: path in files ==> PlainName(path)
  {
    ArchivedEntriesGood(db, files, order, sha);
    ManifestIsCovered(db, files, order, sha);
    NamesOfArchive(db, files, order, sha);
    ManifestIs(db, files, order, sha);
    ArchivedManifest(db, files, order, sha);
    ArchivedLimit(db, files, order, sha);
    hide EntryGood, PlainName, Clean, ManifestOf, Distinct, Sizes, WithinLimit, ManifestOfParts, Storable, Archived;
    assert (forall i :: 0 <= i < |order| ==> PlainName(order[i])) <==> forall path :: path in files ==> PlainName(path);
  }

  lemma ArchivedNames(db: Bytes, files: map<string, Bytes>, order: seq<string>, sha: Bytes -> string, path: string)
    requires forall p :: p in order <==> p in files
    ensures DATA + path in Names(Archived(db, files, order, sha).entries) <==> path in files
    ensures DATABASE in Names(Archived(db, files, order, sha).entries)
  {
    var names := Names(Archived(db, files, order, sha).entries);
    NameAt(db, files, order, sha);
    hide Names, Archived;
    if path in files {
      var i :| 0 <= i < |order| && order[i] == path;
      assert names[i + 1] == DATA + path;
    }
    if DATA + path in names {
      DataIsNotDatabase(path);
      var i :| 0 <= i < |names| && names[i] == DATA + path;
      assert names[i - 1 + 1] == DATA + order[i - 1];
      if order[i - 1] != path {
        DataPathsDiffer(order[i - 1], path);
      }
    }
  }

  lemma StagedDatabase(db: Bytes, files: map<string, Bytes>, order: seq<string>, sha: Bytes -> string)
    requires Distinct(order) && (forall path :: path in order <==> path in files) && Storable(db)
    ensures var staged := Staged(Archived(db, files, order, sha).entries); DATABASE in staged && staged[DATABASE] == db
  {
    var entries := Archived(db, files, order, sha).entries;
    assert entries[0] == Packed(DATABASE, db);
    NamesOfArchive(db, files, order, sha);
    hide Archived, Names, Distinct;
    StagedAre(entries);
  }

  lemma StagedFile(db: Bytes, files: map<string, Bytes>, order: seq<string>, sha: Bytes -> string, path: string)
    requires Distinct(order) && (forall p :: p in order <==> p in files) && (path in files ==> Storable(files[path]))
    ensures var staged := Staged(Archived(db, files, order, sha).entries);
            (DATA + path in staged <==> path in files) && (path in files ==> staged[DATA + path] == files[path])
  {
    var entries := Archived(db, files, order, sha).entries;
    ArchivedNames(db, files, order, sha, path);
    NamesOfArchive(db, files, order, sha);
    if path in files {
      var i :| 0 <= i < |order| && order[i] == path;
      assert entries[i + 1] == Packed(DATA + path, files[path]);
      hide Archived, Names, Distinct, Staged;
      StagedAre(entries);
    } else {
      hide Archived, Names, Distinct, Staged;
      StagedAre(entries);
    }
  }

  /** What is restored from a backup is what was backed up: the same database and the same kept files. */
  lemma RestoreUndoesBackup(db: Bytes, files: map<string, Bytes>, order: seq<string>, sha: Bytes -> string)
    requires Distinct(order) && (forall path :: path in order <==> path in files)
    requires Storable(db) && forall path :: path in files ==> Storable(files[path])
    ensures var staged := Staged(Archived(db, files, order, sha).entries);
            && DATABASE in staged && staged[DATABASE] == db
            && DataOf(staged) == map path | path in files :: Node(true, files[path])
  {
    var staged := Staged(Archived(db, files, order, sha).entries);
    StagedDatabase(db, files, order, sha);
    forall path {
      StagedFile(db, files, order, sha, path);
    }
    hide Staged, Archived;
    assert DataPaths(staged) == files.Keys;
  }

  /** The whole way: what is backed up can be restored exactly if it is not too large and its names are plain, and
      restoring it into any place where the renames succeed installs the same database and the kept files of the same
      data directory. */
  lemma BackedUpIsRestored(db: Bytes, tree: Tree, uploads: bool, order: seq<string>, sha: Bytes -> string,
                           integrity: Bytes -> bool)
    requires Distinct(order) && (forall path :: path in order <==> path in KeptFiles(tree, uploads))
    requires (forall path :: path in tree ==> Clean(path) && Storable(tree[path].content)) && Storable(db)
             && sha(db) != "" && integrity(db)
    ensures var archive := Archived(db, KeptFiles(tree, uploads), order, sha);
            && (Restorable(archive, sha, integrity) <==>
                  Sizes(archive.entries) <= MAX_TOTAL && forall path ::
                      path in tree && Kept(path, tree[path], uploads) ==> PlainName(path))
            && DATABASE in Staged(archive.entries) && Staged(archive.entries)[DATABASE] == db
            && (forall path :: path in DataOf(Staged(archive.entries)) <==>
                path in tree && Kept(path, tree[path], uploads))
            && (forall path :: path in DataOf(Staged(archive.entries)) ==>
                DataOf(Staged(archive.entries))[path] == tree[path])
  {
    var files := KeptFiles(tree, uploads);
    KeptAreRegular(tree, uploads);
    assert forall path :: path in files ==> Storable(files[path]);
    BackupIsWhole(db, files, order, sha);
    RestoreUndoesBackup(db, files, order, sha);
    hide Whole, Staged, DataOf, Archived, Clean, PlainName, Kept, Sizes, Distinct, Storable;
  }

  lemma KeptAreRegular(tree: Tree, uploads: bool)
    ensures forall path :: path in KeptFiles(tree, uploads) <==> path in tree && Kept(path, tree[path], uploads)
    ensures forall path :: path in KeptFiles(tree, uploads) ==> Node(true, KeptFiles(tree, uploads)[path]) == tree[path]
  {
  }
}
