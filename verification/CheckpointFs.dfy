/**
  Publishing a checkpoint as file-system steps. A ghost trace records every state the disk goes
  through, so a crash between any two steps leaves one of its states behind.
 */
module CheckpointFs {

  // ---------- The disk ----------

  const MANIFEST := "manifest.json"

  datatype Content = Data(size: nat) | Manifest(version: int, files: map<string, nat>, size: nat)

  datatype Node = File(content: Content) | Subdirectory

  type Dir = map<string, Node>

  datatype Entry = Directory(nodes: Dir) | Other

  /** The entries of the directory that holds the checkpoints. */
  type Disk = map<string, Entry>

  const REQUIRED: set<string> := {"meta.json", "config.json", "model.safetensors"}

  /** A name without a path. */
  predicate Plain(name: string) {
    name != "" && name != "." && name != ".." && '/' !in name
  }

  predicate TmpAt(name: string, i: nat) {
    i + 5 <= |name| && name[i..i + 5] == ".tmp-"
  }

  /** The glob `.*.tmp-*`. */
  predicate StagingName(name: string) {
    |name| > 0 && name[0] == '.' && exists i | 1 <= i < |name| :: TmpAt(name, i)
  }

  ghost predicate HasManifest(disk: Disk, path: string) {
    path in disk && disk[path].Directory? && MANIFEST in disk[path].nodes
  }

  predicate Listed(nodes: Dir, name: string, size: nat) {
    name in nodes && nodes[name].File? && nodes[name].content.size == size
  }

  /** What a reader checks: a supported version, the required files listed, every listed file there at its size. */
  predicate Validates(nodes: Dir) {
    && MANIFEST in nodes && nodes[MANIFEST].File? && nodes[MANIFEST].content.Manifest?
    && var manifest := nodes[MANIFEST].content;
    && manifest.version in {1, 2}
    && REQUIRED <= manifest.files.Keys
    && forall name | name in manifest.files :: Plain(name) && Listed(nodes, name, manifest.files[name])
  }

  /** Visible means complete: whatever carries a manifest at a checkpoint path validates. */
  ghost predicate Sound(disk: Disk) {
    forall path :: !StagingName(path) && HasManifest(disk, path) ==> Validates(disk[path].nodes)
  }

  /** Published checkpoints are still there, unchanged. */
  ghost predicate Keeps(before: Disk, after: Disk) {
    forall path :: !StagingName(path) && HasManifest(before, path) ==> path in after && after[path] == before[path]
  }

  /** Nothing but one path differs. */
  ghost predicate OnlyAt(before: Disk, after: Disk, path: string) {
    forall p :: p != path ==> (p in before <==> p in after) && (p in before ==> after[p] == before[p])
  }

  lemma OnlyAtChain(a: Disk, b: Disk, c: Disk, path: string)
    requires OnlyAt(a, b, path) && OnlyAt(b, c, path)
    ensures OnlyAt(a, c, path)
  {
  }

  /** What a later state owes an earlier one: published checkpoints kept, and if `whole`, nothing incomplete shown. */
  ghost predicate Safe(before: Disk, after: Disk, whole: bool) {
    Keeps(before, after) && (whole && Sound(before) ==> Sound(after))
  }

  lemma Overwritten(disk: Disk, path: string, first: Entry, second: Entry)
    ensures disk[path := first][path := second] == disk[path := second]
  {
  }

  /** A path whose content promises nothing to readers. */
  ghost predicate Loose(disk: Disk, path: string) {
    StagingName(path) || !HasManifest(disk, path)
  }

  lemma LooseStepIsSafe(before: Disk, after: Disk, path: string, whole: bool)
    requires OnlyAt(before, after, path) && Loose(before, path) && Loose(after, path)
    ensures Safe(before, after, whole)
  {
  }

  lemma SafeChain(a: Disk, b: Disk, c: Disk, whole: bool)
    requires Safe(a, b, whole) && Safe(b, c, whole)
    ensures Safe(a, c, whole)
  {
  }

  /** Renaming a staging directory onto a free path; a complete one leaves the disk sound. */
  lemma PublishIsSafe(before: Disk, after: Disk, staging: string, path: string, whole: bool)
    requires StagingName(staging) && staging in before && before[staging].Directory? && path !in before
    requires path != staging && after == (before - {staging})[path := before[staging]]
    requires whole ==> Validates(before[staging].nodes)
    ensures Safe(before, after, whole)
  {
    forall p | !StagingName(p) && HasManifest(after, p)
      ensures whole && Sound(before) ==> Validates(after[p].nodes)
    {
      if p != path { assert HasManifest(before, p); }
    }
  }

  // ---------- The manifest ----------

  function Sizes(nodes: Dir): map<string, nat> {
    map name | name in nodes && nodes[name].File? && name != MANIFEST :: nodes[name].content.size
  }

  function WithManifest(nodes: Dir, size: nat): Dir {
    nodes[MANIFEST := File(Manifest(2, Sizes(nodes), size))]
  }

  predicate Complete(nodes: Dir) {
    forall name | name in REQUIRED :: name in nodes && nodes[name].File?
  }

  ghost predicate PlainNames(nodes: Dir) {
    forall name :: name in nodes ==> Plain(name)
  }

  /** The manifest written over a directory validates exactly when the required files are there. */
  lemma ManifestValidates(nodes: Dir, size: nat)
    requires PlainNames(nodes)
    ensures Validates(WithManifest(nodes, size)) <==> Complete(nodes)
  {
    var full := WithManifest(nodes, size);
    assert MANIFEST !in REQUIRED;
    assert forall name :: name in Sizes(nodes) ==> Listed(full, name, Sizes(nodes)[name]);
    if Validates(full) {
      assert forall name :: name in REQUIRED ==> name in Sizes(nodes);
    }
  }

  // ---------- Steps ----------

  /** What happens to the disk without a crash in between: one directory, one node of one, or one rename. */
  datatype Step =
    | MakeDirectory(path: string)
    | PutNode(path: string, name: string, node: Node)
    | RemoveNode(path: string, name: string)
    | RemoveDirectory(path: string)
    | Rename(path: string, target: string)

  predicate CanDo(disk: Disk, step: Step) {
    match step
    case MakeDirectory(path) => path !in disk
    case PutNode(path, _, _) => path in disk && disk[path].Directory?
    case RemoveNode(path, _) => path in disk && disk[path].Directory?
    case RemoveDirectory(path) => path in disk && disk[path] == Directory(map[])
    case Rename(path, target) => path in disk && disk[path].Directory? && target !in disk
  }

  function After(disk: Disk, step: Step): Disk
    requires CanDo(disk, step)
  {
    match step
    case MakeDirectory(path) => disk[path := Directory(map[])]
    case PutNode(path, name, node) => disk[path := Directory(disk[path].nodes[name := node])]
    case RemoveNode(path, name) => disk[path := Directory(disk[path].nodes - {name})]
    case RemoveDirectory(path) => disk - {path}
    case Rename(path, target) => (disk - {path})[target := disk[path]]
  }

  ghost predicate OneStep(before: Disk, after: Disk) {
    exists step: Step :: CanDo(before, step) && After(before, step) == after
  }

  /** A recorded run of the disk: every state follows from the one before by one step. */
  ghost predicate Steps(trace: seq<Disk>) {
    trace != [] && forall i | 0 < i < |trace| :: OneStep(trace[i - 1], trace[i])
  }

  lemma StepsJoin(a: seq<Disk>, b: seq<Disk>)
    requires Steps(a) && Steps(b) && a[|a| - 1] == b[0]
    ensures Steps(a + b[1..])
  {
    var t := a + b[1..];
    forall i | 0 < i < |t|
      ensures OneStep(t[i - 1], t[i])
    {
      if i >= |a| {
        assert t[i] == b[i - |a| + 1] && t[i - 1] == b[i - |a|];
      }
    }
  }

  // ---------- The staging hook ----------

  datatype Edit = Put(name: string, node: Node) | Drop(name: string)

  function Apply(nodes: Dir, e: Edit): Dir {
    match e case Put(name, node) => nodes[name := node] case Drop(name) => nodes - {name}
  }

  function EditStep(path: string, e: Edit): Step {
    match e case Put(name, node) => PutNode(path, name, node) case Drop(name) => RemoveNode(path, name)
  }

  function ApplyAll(nodes: Dir, edits: seq<Edit>): Dir {
    if edits == [] then nodes else Apply(ApplyAll(nodes, edits[..|edits| - 1]), edits[|edits| - 1])
  }

  /** Published, already there, or an exception (also after the rename, when syncing the parent fails). */
  datatype Outcome = Published | Kept | Raised

  /** A directory name drawn by mkdtemp. */
  function StagingPath(name: string, unique: string): string {
    "." + name + ".tmp-" + unique
  }

  lemma StagingPathMatches(name: string, unique: string)
    ensures StagingName(StagingPath(name, unique))
  {
    var path := StagingPath(name, unique);
    assert path == ("." + name) + (".tmp-" + unique);
    assert path[1 + |name|..1 + |name| + 5] == ".tmp-";
    assert TmpAt(path, 1 + |name|);
  }

  /** No directory stands where the manifest goes. */
  predicate ManifestFree(nodes: Dir) {
    MANIFEST in nodes ==> nodes[MANIFEST].File?
  }

  /** Files written one after the other into an empty directory. */
  function WriteAll(files: seq<(string, nat)>): Dir {
    if files == [] then map[]
    else WriteAll(files[..|files| - 1])[files[|files| - 1].0 := File(Data(files[|files| - 1].1))]
  }

  function Staged(files: seq<(string, nat)>, edits: seq<Edit>): Dir {
    ApplyAll(WriteAll(files), edits)
  }

  /** The files of a checkpoint: metadata, configuration, weights, one file per extra. */
  function CheckpointFiles(meta: nat, config: nat, weights: nat, extras: seq<(string, nat)>): seq<(string, nat)> {
    [("meta.json", meta), ("config.json", config), ("model.safetensors", weights)]
    + seq(|extras|, i requires 0 <= i < |extras| => (extras[i].0 + ".pt", extras[i].1))
  }

  ghost predicate Holds(nodes: Dir, name: string) {
    name in nodes && nodes[name].File?
  }

  lemma {:induction false} FilesOnly(files: seq<(string, nat)>)
    ensures forall name :: name in WriteAll(files) ==> WriteAll(files)[name].File?
  {
    if files != [] { FilesOnly(files[..|files| - 1]); }
  }

  lemma {:induction false} WriteAllHolds(files: seq<(string, nat)>, name: string, i: nat)
    requires i < |files| && files[i].0 == name
    ensures Holds(WriteAll(files), name)
  {
    if i < |files| - 1 { WriteAllHolds(files[..|files| - 1], name, i); }
  }

  /** The edit leaves a file of that name a file. */
  predicate Spares(e: Edit, name: string) {
    e.name == name ==> e.Put? && e.node.File?
  }

  lemma {:induction false} EditsHold(nodes: Dir, edits: seq<Edit>, name: string)
    requires Holds(nodes, name) && forall i :: 0 <= i < |edits| ==> Spares(edits[i], name)
    ensures Holds(ApplyAll(nodes, edits), name)
  {
    if edits != [] { EditsHold(nodes, edits[..|edits| - 1], name); }
  }

  /** Edits that never remove a required file, nor put a directory in its place, leave the checkpoint complete. */
  lemma SparingEditsComplete(meta: nat, config: nat, weights: nat, extras: seq<(string, nat)>, edits: seq<Edit>)
    requires forall i, name :: 0 <= i < |edits| && name in REQUIRED ==> Spares(edits[i], name)
    ensures Complete(Staged(CheckpointFiles(meta, config, weights, extras), edits))
  {
    var files := CheckpointFiles(meta, config, weights, extras);
    WriteAllHolds(files, "meta.json", 0);
    WriteAllHolds(files, "config.json", 1);
    WriteAllHolds(files, "model.safetensors", 2);
    forall name | name in REQUIRED
      ensures Holds(Staged(files, edits), name)
    {
      EditsHold(WriteAll(files), edits, name);
    }
  }

  /** One call of save: where, what, what the hook edits, and what the environment adds to it. */
  datatype Request = Request(name: string, files: seq<(string, nat)>, edits: seq<Edit>, manifestSize: nat,
                             unique: string, stale: set<string>)
  {
    /** Checkpoints are not named like staging directories, and extra files have plain names. */
    ghost predicate Permitted() {
      !StagingName(name) && PlainNames(Staged(files, edits))
    }

    /** The hook leaves every required file in place. */
    ghost predicate IsWhole() {
      Complete(Staged(files, edits))
    }

    /** Nothing is in the way at the checkpoint's path, at the drawn staging path, or where the manifest goes. */
    predicate CanPublish(disk: Disk) {
      && (name in disk ==> disk[name].Directory?) && StagingPath(name, unique) !in disk
      && ManifestFree(Staged(files, edits))
    }

    function Content(): Dir {
      WithManifest(Staged(files, edits), manifestSize)
    }
  }

  ghost predicate SafeRun(trace: seq<Disk>, whole: bool) {
    Steps(trace) && forall i | 0 <= i < |trace| :: Safe(trace[0], trace[i], whole)
  }

  /** The states of a run that died, after those visited before it. */
  ghost predicate Visited(first: Disk, visited: seq<Disk>, whole: bool) {
    Steps(visited) && visited[0] == first && forall i | 0 <= i < |visited| :: Safe(first, visited[i], whole)
  }

  lemma OneMoreRun(first: Disk, visited: seq<Disk>, trace: seq<Disk>, died: nat, run: bool, whole: bool)
    requires Visited(first, visited, whole) && 0 < died <= |trace| && SafeRun(trace, run) && (whole ==> run)
    requires visited[|visited| - 1] == trace[0]
    ensures Visited(first, visited + trace[1..died], whole)
  {
    var all := visited + trace[1..died];
    assert trace[..died][1..] == trace[1..died];
    StepsJoin(visited, trace[..died]);
    forall i | 0 <= i < |all|
      ensures Safe(first, all[i], whole)
    {
      if i >= |visited| {
        assert all[i] == trace[i - |visited| + 1];
        SafeChain(first, trace[0], all[i], whole);
      }
    }
  }

  // ---------- The file system ----------

  class FileSystem {
    var disk: Disk
    /** Every state of the disk so far, the present one last. */
    var trace: seq<Disk>
    /** Which operations fail, by their number, and how many were tried. */
    const fails: nat -> bool
    var tried: nat

    ghost predicate Valid()
      reads this
    {
      Steps(trace) && trace[|trace| - 1] == disk
    }

    /** Every state since number `from` is safe with respect to that one. */
    ghost predicate SafeSince(from: nat, whole: bool)
      reads this
    {
      from < |trace| && forall i | from <= i < |trace| :: Safe(trace[from], trace[i], whole)
    }

    /** Still a recorded run, longer than before, and safe since `from`. */
    ghost predicate Safely(before: seq<Disk>, from: nat, whole: bool)
      reads this
    {
      Valid() && before <= trace && SafeSince(from, whole)
    }

    /** Nothing failed since operation number `from`. */
    ghost predicate Smooth(from: nat)
      reads this
    {
      from <= tried && forall c: nat | from <= c < tried :: !fails(c)
    }

    constructor (disk: Disk, fails: nat -> bool)
      ensures Valid() && trace == [disk] && this.disk == disk && this.fails == fails && tried == 0
    {
      this.disk, trace, this.fails, tried := disk, [disk], fails, 0;
    }

    /** Something that may fail. */
    method Try() returns (ok: bool)
      modifies this`tried
      ensures tried == old(tried) + 1 && ok == !fails(old(tried))
    {
      ok := !fails(tried);
      tried := tried + 1;
    }

    method Do(step: Step)
      requires Valid() && CanDo(disk, step)
      modifies this`disk, this`trace
      ensures Valid() && disk == After(old(disk), step) && trace == old(trace) + [disk]
    {
      ghost var before := disk;
      disk := After(disk, step);
      assert OneStep(before, disk);
      trace := trace + [disk];
    }

    /** A step inside a path that promises nothing, before and after. */
    method DoLoosely(step: Step, ghost from: nat)
      requires Valid() && SafeSince(from, true) && CanDo(disk, step) && !step.Rename?
      requires StagingName(step.path) || (!HasManifest(disk, step.path) && !step.PutNode?)
      modifies this`disk, this`trace
      ensures Safely(old(trace), from, true) && disk == After(old(disk), step)
      ensures OnlyAt(old(disk), disk, step.path)
    {
      ghost var before := disk;
      Do(step);
      LooseStepIsSafe(before, disk, step.path, true);
      SafeChain(trace[from], before, disk, true);
    }

    /** The content of a file: it may fail with part of it written. */
    method WriteContent(path: string, name: string, content: Content, ghost from: nat) returns (ok: bool)
      requires Valid() && SafeSince(from, true) && StagingName(path) && path in disk && disk[path].Directory?
      modifies this
      ensures Safely(old(trace), from, true)
      ensures OnlyAt(old(disk), disk, path) && path in disk && disk[path].Directory?
      ensures tried == old(tried) + 1 && ok == !fails(old(tried))
      ensures ok ==> disk == old(disk)[path := Directory(old(disk)[path].nodes[name := File(content)])]
    {
      ghost var nodes := disk[path].nodes;
      var part: nat := *;
      DoLoosely(PutNode(path, name, File(Data(part))), from);
      ok := Try();
      if ok {
        DoLoosely(PutNode(path, name, File(content)), from);
        assert nodes[name := File(Data(part))][name := File(content)] == nodes[name := File(content)];
      }
    }

    /** Write a file: it may fail before or after creating it with part of its content. */
    method Write(path: string, name: string, content: Content, ghost from: nat) returns (ok: bool)
      requires Valid() && SafeSince(from, true) && StagingName(path) && path in disk && disk[path].Directory?
      modifies this
      ensures Safely(old(trace), from, true)
      ensures OnlyAt(old(disk), disk, path) && path in disk && disk[path].Directory?
      ensures ok ==> disk == old(disk)[path := Directory(old(disk)[path].nodes[name := File(content)])]
      ensures old(tried) <= tried
      ensures if name in old(disk)[path].nodes && old(disk)[path].nodes[name].Subdirectory? then !ok
              else ok <==> Smooth(old(tried))
    {
      ok := !(name in disk[path].nodes && disk[path].nodes[name].Subdirectory?);
      if ok { ok := Try(); }
      if ok { ok := WriteContent(path, name, content, from); }
    }

    /** Remove a tree node by node, then the directory; it may stop anywhere. */
    method RemoveTree(path: string, ghost from: nat) returns (ok: bool)
      requires Valid() && SafeSince(from, true) && Loose(disk, path) && path in disk && disk[path].Directory?
      modifies this
      ensures Safely(old(trace), from, true) && OnlyAt(old(disk), disk, path) && Loose(disk, path)
      ensures path in disk ==> disk[path].Directory? && disk[path].nodes.Keys <= old(disk)[path].nodes.Keys
      ensures ok ==> path !in disk
      ensures old(tried) <= tried && (Smooth(old(tried)) ==> ok)
    {
      while disk[path].nodes != map[]
        invariant Safely(old(trace), from, true) && OnlyAt(old(disk), disk, path) && Loose(disk, path)
        invariant path in disk && disk[path].Directory? && disk[path].nodes.Keys <= old(disk)[path].nodes.Keys
        invariant Smooth(old(tried))
        decreases disk[path].nodes.Keys
      {
        var removed := Try();
        if !removed { return false; }
        var name :| name in disk[path].nodes;
        DoLoosely(RemoveNode(path, name), from);
      }
      var emptied := Try();
      if !emptied { return false; }
      DoLoosely(RemoveDirectory(path), from);
      return true;
    }

    /** Drop staging directories old enough to have been abandoned; anything else stays. */
    method CleanupStaleStaging(stale: set<string>, ghost from: nat)
      requires Valid() && SafeSince(from, true)
      modifies this
      ensures Safely(old(trace), from, true) && disk.Keys <= old(disk).Keys
      ensures forall path :: path in old(disk) && !(StagingName(path) && path in stale) ==>
                path in disk && disk[path] == old(disk)[path]
      ensures old(tried) <= tried
    {
      var todo := set path | path in disk && StagingName(path);
      while todo != {}
        invariant Safely(old(trace), from, true) && disk.Keys <= old(disk).Keys
        invariant forall path :: path in old(disk) && !(StagingName(path) && path in stale) ==>
                    path in disk && disk[path] == old(disk)[path]
        invariant forall path :: path in todo ==> StagingName(path)
        invariant old(tried) <= tried
        decreases todo
      {
        var path :| path in todo;
        todo := todo - {path};
        if path in disk && disk[path].Directory? && path in stale {
          var ok := RemoveTree(path, from);
        }
      }
    }

    method WriteFiles(path: string, files: seq<(string, nat)>, ghost from: nat) returns (ok: bool)
      requires Valid() && SafeSince(from, true) && StagingName(path) && path in disk && disk[path] == Directory(map[])
      modifies this
      ensures Safely(old(trace), from, true)
      ensures OnlyAt(old(disk), disk, path) && path in disk && disk[path].Directory?
      ensures ok ==> disk == old(disk)[path := Directory(WriteAll(files))]
      ensures old(tried) <= tried && (Smooth(old(tried)) ==> ok)
    {
      for i := 0 to |files|
        invariant Safely(old(trace), from, true) && disk == old(disk)[path := Directory(WriteAll(files[..i]))]
        invariant Smooth(old(tried))
      {
        FilesOnly(files[..i]);
        var written := Write(path, files[i].0, Data(files[i].1), from);
        if !written { return false; }
        assert files[..i + 1][..i] == files[..i];
      }
      assert files[..|files|] == files;
      return true;
    }

    /** The caller's hook: any edits inside the staging directory. */
    method Prepare(path: string, edits: seq<Edit>, ghost from: nat) returns (ok: bool)
      requires Valid() && SafeSince(from, true) && StagingName(path) && path in disk && disk[path].Directory?
      modifies this
      ensures Safely(old(trace), from, true)
      ensures OnlyAt(old(disk), disk, path) && path in disk && disk[path].Directory?
      ensures ok ==> disk == old(disk)[path := Directory(ApplyAll(old(disk)[path].nodes, edits))]
      ensures old(tried) <= tried && (Smooth(old(tried)) ==> ok)
    {
      ghost var nodes := disk[path].nodes;
      for i := 0 to |edits|
        invariant Safely(old(trace), from, true) && disk == old(disk)[path := Directory(ApplyAll(nodes, edits[..i]))]
        invariant Smooth(old(tried))
      {
        var edited := Try();
        if !edited { return false; }
        assert edits[..i + 1][..i] == edits[..i];
        DoLoosely(EditStep(path, edits[i]), from);
      }
      assert edits[..|edits|] == edits;
      return true;
    }

    /** The checkpoint's files, then the caller's edits. */
    method WriteAndPrepare(path: string, files: seq<(string, nat)>, edits: seq<Edit>, ghost from: nat)
      returns (ok: bool)
      requires Valid() && SafeSince(from, true) && StagingName(path) && path in disk && disk[path] == Directory(map[])
      modifies this
      ensures Safely(old(trace), from, true)
      ensures OnlyAt(old(disk), disk, path) && path in disk && disk[path].Directory?
      ensures ok ==> disk == old(disk)[path := Directory(Staged(files, edits))]
      ensures old(tried) <= tried && (Smooth(old(tried)) ==> ok)
    {
      ghost var start := disk;
      ok := WriteFiles(path, files, from);
      if ok {
        ghost var written := disk;
        ok := Prepare(path, edits, from);
        OnlyAtChain(start, written, disk, path);
        if ok { Overwritten(start, path, Directory(WriteAll(files)), Directory(Staged(files, edits))); }
      }
    }

    /** Fill a staging directory: the checkpoint's files, the caller's edits, and last the manifest. */
    method Stage(path: string, files: seq<(string, nat)>, edits: seq<Edit>, manifestSize: nat, ghost from: nat)
      returns (ok: bool)
      requires Valid() && SafeSince(from, true) && StagingName(path) && path in disk && disk[path] == Directory(map[])
      modifies this
      ensures Safely(old(trace), from, true)
      ensures OnlyAt(old(disk), disk, path) && path in disk && disk[path].Directory?
      ensures ok ==> disk == old(disk)[path := Directory(WithManifest(Staged(files, edits), manifestSize))]
      ensures old(tried) <= tried && (Smooth(old(tried)) && ManifestFree(Staged(files, edits)) ==> ok)
    {
      ghost var start := disk;
      ok := WriteAndPrepare(path, files, edits, from);
      if ok {
        ghost var prepared := disk;
        ok := Write(path, MANIFEST, Manifest(2, Sizes(disk[path].nodes), manifestSize), from);
        OnlyAtChain(start, prepared, disk, path);
      }
    }

    /** Clear a directory that carries no manifest, then rename the staging directory in one step. */
    method Publish(staging: string, path: string, ghost from: nat) returns (ok: bool)
      requires Valid() && SafeSince(from, true) && StagingName(staging) && !StagingName(path)
      requires !HasManifest(disk, path) && (path in disk ==> disk[path].Directory?)
      requires staging in disk && disk[staging].Directory?
      modifies this
      ensures Safely(old(trace), from, !ok || Validates(old(disk)[staging].nodes))
      ensures ok ==> path in disk && disk[path] == old(disk)[staging] && staging !in disk
      ensures !ok ==> OnlyAt(old(disk), disk, path) && !HasManifest(disk, path)
      ensures old(tried) <= tried && (Smooth(old(tried)) ==> ok)
    {
      if path in disk {
        var cleared := RemoveTree(path, from);
        if !cleared { return false; }
      }
      var renamed := Try();
      if !renamed { return false; }
      ghost var before, whole := disk, Validates(disk[staging].nodes);
      Do(Rename(staging, path));
      PublishIsSafe(before, disk, staging, path, whole);
      SafeChain(trace[from], before, disk, whole);
      return true;
    }

    /** Drop a staging directory after a failure, as far as that goes. */
    method Abandon(staging: string, ghost from: nat)
      requires Valid() && SafeSince(from, true) && StagingName(staging)
      modifies this
      ensures Safely(old(trace), from, true) && OnlyAt(old(disk), disk, staging) && old(tried) <= tried
    {
      if staging in disk && disk[staging].Directory? {
        var ok := RemoveTree(staging, from);
      }
    }

    /** Stage and publish, once the path is known to carry no checkpoint. */
    method StageAndPublish(staging: string, r: Request, ghost from: nat) returns (ok: bool)
      requires Valid() && SafeSince(from, true) && StagingName(staging) && r.Permitted()
      requires !HasManifest(disk, r.name) && (r.name in disk ==> disk[r.name].Directory?)
      modifies this
      ensures Safely(old(trace), from, !ok || r.IsWhole())
      ensures ok ==> r.name in disk && disk[r.name] == Directory(r.Content())
      ensures !ok ==> !HasManifest(disk, r.name)
      ensures old(tried) <= tried
      ensures Smooth(old(tried)) && staging !in old(disk) && ManifestFree(Staged(r.files, r.edits)) ==> ok
    {
      if staging in disk { return false; }  // mkdtemp gives up
      var made := Try();
      if !made { return false; }
      DoLoosely(MakeDirectory(staging), from);
      ok := Stage(staging, r.files, r.edits, r.manifestSize, from);
      if ok {
        ManifestValidates(Staged(r.files, r.edits), r.manifestSize);
        ok := Publish(staging, r.name, from);
      }
      if !ok { Abandon(staging, from); }
    }

    /** A run that began sound stays so, up to the publication of an incomplete directory. */
    lemma SoundUnlessShown(from: nat, r: Request, ok: bool)
      requires Valid() && SafeSince(from, !ok || r.IsWhole()) && r.Permitted() && Sound(trace[from])
      requires if ok then r.name in disk && disk[r.name] == Directory(r.Content()) else !HasManifest(disk, r.name)
      ensures (forall i | from <= i < |trace| :: Sound(trace[i])) <==> r.IsWhole() || !HasManifest(disk, r.name)
    {
      ManifestValidates(Staged(r.files, r.edits), r.manifestSize);
    }

    /**
      Publish a checkpoint once; when nothing fails or is in the way, it is published. Whatever fails, and wherever
      the run stops, what was published before is kept. Every state on the way shows complete checkpoints only,
      unless the caller's edits lost a required file and the result was published all the same.
     */
    method Save(r: Request) returns (outcome: Outcome)
      requires Valid() && r.Permitted()
      modifies this
      ensures Safely(old(trace), |old(trace)| - 1, r.IsWhole())
      ensures Sound(old(disk)) ==>
                ((forall i | |old(trace)| <= i < |trace| :: Sound(trace[i]))
                 <==> r.IsWhole() || outcome == Kept || !HasManifest(disk, r.name))
      ensures r.name in old(disk) && old(disk)[r.name].Other? ==> outcome == Raised && trace == old(trace)
      ensures HasManifest(old(disk), r.name) <==> outcome == Kept
      ensures outcome == Kept ==> trace == old(trace)
      ensures outcome == Published ==> r.name in disk && disk[r.name] == Directory(r.Content())
      ensures outcome == Raised ==> !HasManifest(disk, r.name) || disk[r.name] == Directory(r.Content())
      ensures Smooth(old(tried)) && !HasManifest(old(disk), r.name) && r.CanPublish(old(disk)) ==> outcome == Published
    {
      ghost var from := |trace| - 1;
      var staging := StagingPath(r.name, r.unique);
      StagingPathMatches(r.name, r.unique);
      if r.name in disk && disk[r.name].Other? { return Raised; }
      if r.name in disk && MANIFEST in disk[r.name].nodes { return Kept; }
      CleanupStaleStaging(r.stale, from);
      var ok := StageAndPublish(staging, r, from);
      if Sound(trace[from]) { SoundUnlessShown(from, r, ok); }
      if ok {
        ok := Try();  // syncing the parent directory
      }
      return if ok then Published else Raised;
    }
  }

  // ---------- A hook that loses a file ----------

  /** A save whose staging hook deletes the metadata. */
  const LOSING := Request("epoch_1_step_1", CheckpointFiles(1, 1, 1, []), [Drop("meta.json")], 1, "a", {})

  lemma LosingContent()
    ensures Staged(LOSING.files, LOSING.edits)
         == map["config.json" := File(Data(1)), "model.safetensors" := File(Data(1))]
  {
    var a: (string, nat), b: (string, nat), c: (string, nat) :=
      ("meta.json", 1), ("config.json", 1), ("model.safetensors", 1);
    assert CheckpointFiles(1, 1, 1, []) == [a, b, c];
    assert [a, b, c][..2] == [a, b] && [a, b][..1] == [a] && [a][..0] == [];
    assert WriteAll([a]) == map["meta.json" := File(Data(1))];
    assert WriteAll([a, b]) == map["meta.json" := File(Data(1)), "config.json" := File(Data(1))];
    assert LOSING.edits[..0] == [];
  }

  lemma LosingIsIncomplete()
    ensures LOSING.Permitted() && !LOSING.IsWhole() && !Validates(LOSING.Content())
  {
    LosingContent();
    assert Plain("config.json") && Plain("model.safetensors");
    assert "meta.json" in REQUIRED;
    ManifestValidates(Staged(LOSING.files, LOSING.edits), LOSING.manifestSize);
  }

  /** Saved into an empty directory while nothing fails: it is published, and what readers see does not validate. */
  method LosingHookExample() returns (fs: FileSystem, outcome: Outcome)
    ensures fresh(fs) && fs.Valid() && fs.trace[0] == map[] && outcome == Published
    ensures HasManifest(fs.disk, LOSING.name) && !Validates(fs.disk[LOSING.name].nodes) && !Sound(fs.disk)
  {
    LosingIsIncomplete();
    LosingContent();
    fs := new FileSystem(map[], c => false);
    outcome := fs.Save(LOSING);
  }

  // ---------- Whole histories ----------

  /**
    Saves one after the other, each by a process that finds the disk as it is and dies in any state of its run.
    Every state the disk went through keeps what was published at the start; and if no staging hook loses a
    required file, every checkpoint anyone could see in any of them is complete.
   */
  method SavesAndCrashes(first: Disk, requests: seq<Request>, fails: (nat, nat) -> bool) returns (visited: seq<Disk>)
    requires forall r | r in requests :: r.Permitted()
    ensures Steps(visited) && visited[0] == first
    ensures forall i | 0 <= i < |visited| :: Keeps(first, visited[i])
    ensures Sound(first) && (forall r | r in requests :: r.IsWhole()) ==>
              forall i | 0 <= i < |visited| :: Sound(visited[i])
  {
    visited := [first];
    ghost var whole := forall r | r in requests :: r.IsWhole();
    for k := 0 to |requests|
      invariant Visited(first, visited, whole)
    {
      var save: nat := k;
      var fs := new FileSystem(visited[|visited| - 1], (c: nat) => fails(save, c));
      var outcome := fs.Save(requests[k]);
      var died: nat :| 0 < died <= |fs.trace|;
      OneMoreRun(first, visited, fs.trace, died, requests[k].IsWhole(), whole);
      visited := visited + fs.trace[1..died];
    }
  }
}
