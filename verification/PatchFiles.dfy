/** Patch manifests, snapshots and rollbacks over a workspace of files. */
module PatchFiles {
  import opened Text

  type Bytes = seq<bv8>

  type Workspace = map<string, Bytes>

  // ----- The manifest of a patch -----

  /** What Python's `str.strip` removes. */
  predicate IsPySpace(c: char) {
    (IsSpace(c) && c != '\U{FEFF}') || '\U{1C}' <= c <= '\U{1F}' || c == '\U{85}'
  }

  function LStrip(s: string): (t: string)
    ensures t != "" ==> !IsPySpace(t[0])
  {
    if s != "" && IsPySpace(s[0]) then LStrip(s[1..]) else s
  }

  function RStrip(s: string): (t: string)
    ensures t <= s
    ensures t != "" ==> !IsPySpace(t[|t| - 1])
  {
    if s != "" && IsPySpace(s[|s| - 1]) then RStrip(s[..|s| - 1]) else s
  }

  function BeforeTab(s: string): (t: string)
    ensures t <= s && '\t' !in t
  {
    if s == "" || s[0] == '\t' then "" else [s[0]] + BeforeTab(s[1..])
  }

  /** The file a `+++` header names; deletions and empty names give none. */
  function HeaderFile(line: string): Option<string> {
    if !StartsWith(line, "+++ ") then None
    else
      var raw := RStrip(LStrip(BeforeTab(line[4..])));
      var name := if StartsWith(raw, "b/") then raw[2..] else raw;
      if name == "" || name == "/dev/null" then None else Some(name)
  }

  /** The names that the first n lines put into the manifest, in order of first appearance. */
  ghost predicate IsManifest(lines: seq<string>, n: nat, paths: seq<string>)
    requires n <= |lines|
  {
    && (forall i :: 0 <= i < n && HeaderFile(lines[i]).Some? ==> HeaderFile(lines[i]).value in paths)
    && (forall k :: 0 <= k < |paths| ==> Named(lines, n, paths[k]))
    && (forall k, l, i: nat, j: nat :: 0 <= k < l < |paths| && i < n && j < n ==>
         InOrder(lines, i, paths[k], j, paths[l]))
  }

  ghost predicate Named(lines: seq<string>, n: nat, path: string) {
    exists i: nat :: i < n && FirstAt(lines, i, path)
  }

  ghost predicate InOrder(lines: seq<string>, i: nat, one: string, j: nat, other: string) {
    FirstAt(lines, i, one) && FirstAt(lines, j, other) ==> i < j
  }

  ghost predicate FirstAt(lines: seq<string>, i: nat, path: string) {
    && i < |lines| && HeaderFile(lines[i]) == Some(path)
    && forall j :: 0 <= j < i ==> HeaderFile(lines[j]) != Some(path)
  }

  function Manifest(lines: seq<string>): seq<string> {
    if lines == [] then []
    else
      var before := Manifest(lines[..|lines| - 1]);
      match HeaderFile(lines[|lines| - 1])
      case None => before
      case Some(path) => if path in before then before else before + [path]
  }

  method ParsePatchManifest(lines: seq<string>) returns (paths: seq<string>)
    ensures paths == Manifest(lines)
  {
    paths := [];
    var seen: set<string> := {};
    assert lines[..0] == [];
    for i := 0 to |lines|
      invariant paths == Manifest(lines[..i])
      invariant forall p :: p in seen <==> p in paths
    {
      assert lines[..i + 1][..i] == lines[..i];
      match HeaderFile(lines[i]) {
        case None =>
        case Some(path) =>
          if path !in seen {
            paths := paths + [path];
            seen := seen + {path};
          }
      }
    }
    assert lines[..|lines|] == lines;
  }

  /** The manifest lists every file that some header names, each once, in the order in which they first appear. */
  lemma {:induction false} ManifestIsFirstAppearances(lines: seq<string>)
    ensures IsManifest(lines, |lines|, Manifest(lines))
    ensures forall k, l :: 0 <= k < l < |Manifest(lines)| ==> Manifest(lines)[k] != Manifest(lines)[l]
  {
    if lines != [] {
      var front := lines[..|lines| - 1];
      ManifestIsFirstAppearances(front);
      ManifestStep(lines);
    }
  }

  lemma ManifestStep(lines: seq<string>)
    requires lines != []
    requires var front := lines[..|lines| - 1];
             IsManifest(front, |front|, Manifest(front)) &&
             forall k, l :: 0 <= k < l < |Manifest(front)| ==> Manifest(front)[k] != Manifest(front)[l]
    ensures IsManifest(lines, |lines|, Manifest(lines))
    ensures forall k, l :: 0 <= k < l < |Manifest(lines)| ==> Manifest(lines)[k] != Manifest(lines)[l]
  {
    hide HeaderFile;
    var n := |lines| - 1;
    var front := lines[..n];
    var earlier, paths := Manifest(front), Manifest(lines);
    assert forall i :: 0 <= i < n ==> lines[i] == front[i];
    forall i, path | 0 <= i < n ensures FirstAt(lines, i, path) <==> FirstAt(front, i, path) {
    }
    var last := HeaderFile(lines[n]);
    if last.Some? && last.value !in earlier {
      assert FirstAt(lines, n, last.value);
    }
    forall i | 0 <= i < |lines| && HeaderFile(lines[i]).Some? ensures HeaderFile(lines[i]).value in paths {
      if i < n {
        assert HeaderFile(front[i]).value in earlier;
      } else if last.value !in earlier {
        assert paths[|earlier|] == last.value;
      }
    }
    forall k | 0 <= k < |paths| ensures Named(lines, |lines|, paths[k]) {
      if k < |earlier| {
        assert Named(front, n, earlier[k]);
        var i :| 0 <= i < n && FirstAt(front, i, earlier[k]);
        assert FirstAt(lines, i, paths[k]);
      } else {
        assert FirstAt(lines, n, paths[k]);
      }
    }
    forall k, l, i: nat, j: nat | 0 <= k < l < |paths| && i < |lines| && j < |lines|
      ensures InOrder(lines, i, paths[k], j, paths[l])
    {
      assert Named(front, n, earlier[k]);
      var i' :| 0 <= i' < n && FirstAt(front, i', earlier[k]);
      if l < |earlier| {
        assert Named(front, n, earlier[l]);
        var j' :| 0 <= j' < n && FirstAt(front, j', earlier[l]);
        assert InOrder(front, i', earlier[k], j', earlier[l]);
      }
    }
  }

  // ----- Snapshots -----

  /** The saved content of a path; None when there was no file. */
  datatype Saved = Saved(path: string, content: Option<Bytes>)

  type Snapshot = seq<Saved>

  function Content(files: Workspace, path: string): Option<Bytes> {
    if path in files then Some(files[path]) else None
  }

  function SnapshotOf(files: Workspace, paths: seq<string>): Snapshot {
    seq(|paths|, i requires 0 <= i < |paths| => Saved(paths[i], Content(files, paths[i])))
  }

  method SnapshotFiles(files: Workspace, paths: seq<string>) returns (snapshot: Snapshot)
    ensures snapshot == SnapshotOf(files, paths)
  {
    snapshot := [];
    for i := 0 to |paths|
      invariant snapshot == SnapshotOf(files, paths[..i])
    {
      assert paths[..i + 1] == paths[..i] + [paths[i]];
      snapshot := snapshot + [Saved(paths[i], Content(files, paths[i]))];
    }
    assert paths[..|paths|] == paths;
  }

  function Put(files: Workspace, saved: Saved): Workspace {
    match saved.content
    case None => files - {saved.path}
    case Some(bytes) => files[saved.path := bytes]
  }

  /** The workspace after the first n entries of the snapshot have been written back. */
  function Restored(files: Workspace, snapshot: Snapshot, n: nat): Workspace
    requires n <= |snapshot|
  {
    if n == 0 then files else Put(Restored(files, snapshot, n - 1), snapshot[n - 1])
  }

  lemma RestoredAt(files: Workspace, start: Workspace, paths: seq<string>, n: nat, p: string)
    requires n <= |paths|
    ensures Content(Restored(files, SnapshotOf(start, paths), n), p) ==
              if p in paths[..n] then Content(start, p) else Content(files, p)
  {
    if n > 0 {
      RestoredAt(files, start, paths, n - 1, p);
      assert paths[..n] == paths[..n - 1] + [paths[n - 1]];
    }
  }

  lemma SameContent(a: Workspace, b: Workspace)
    requires forall p :: Content(a, p) == Content(b, p)
    ensures a == b
  {
    forall p ensures (p in a <==> p in b) && (p in a ==> a[p] == b[p]) {
      assert Content(a, p) == Content(b, p);
    }
  }

  /** The files outside the listed paths are the same. */
  ghost predicate OnlyTouches(before: Workspace, after: Workspace, paths: seq<string>) {
    forall p :: p !in paths ==> Content(after, p) == Content(before, p)
  }

  /** Writing a snapshot back restores the workspace byte for byte exactly when nothing else has changed:
      a file that a patch deletes never reaches the manifest, and is lost. */
  lemma {:induction false} RollbackRestoresIff(start: Workspace, changed: Workspace, paths: seq<string>)
    ensures Restored(changed, SnapshotOf(start, paths), |paths|) == start <==> OnlyTouches(start, changed, paths)
  {
    var restored := Restored(changed, SnapshotOf(start, paths), |paths|);
    assert paths[..|paths|] == paths;
    forall p ensures Content(restored, p) == if p in paths then Content(start, p) else Content(changed, p) {
      RestoredAt(changed, start, paths, |paths|, p);
    }
    if OnlyTouches(start, changed, paths) {
      SameContent(restored, start);
    } else {
      var p :| p !in paths && Content(changed, p) != Content(start, p);
      assert Content(restored, p) != Content(start, p);
    }
  }
}
