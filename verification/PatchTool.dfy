/** `apply_unified_diff`: the gates, the dry run, the application and the rollback of one patch. */
module PatchTool {
  import opened PatchFiles
  import opened Text

  const MAX_FILES := 5
  const MAX_LINES := 300

  // ----- Faults while files are written back -----

  /** A rollback that fails at entry `at` leaves the file of that entry in some other state. */
  datatype Fault = NoFault | Fault(at: nat, left: Option<Bytes>)

  predicate Hits(fault: Fault, snapshot: Snapshot) {
    fault.Fault? && fault.at < |snapshot|
  }

  function AfterRollback(files: Workspace, snapshot: Snapshot, fault: Fault): Workspace {
    if Hits(fault, snapshot) then
      Put(Restored(files, snapshot, fault.at), Saved(snapshot[fault.at].path, fault.left))
    else
      Restored(files, snapshot, |snapshot|)
  }

  // ----- The gates -----

  /** Python's `str.splitlines` ends a line at any of these. */
  predicate EndsLine(c: char) {
    '\n' <= c <= '\r' || '\U{1C}' <= c <= '\U{1E}' || c == '\U{85}' || c == '\U{2028}' || c == '\U{2029}'
  }

  function LineLength(text: string): (n: nat)
    ensures n <= |text|
    ensures n < |text| ==> EndsLine(text[n])
  {
    if text == "" || EndsLine(text[0]) then 0 else 1 + LineLength(text[1..])
  }

  function SplitLines(text: string): seq<string>
    decreases |text|
  {
    if text == "" then []
    else
      var n := LineLength(text);
      var next := if StartsWith(text[n..], "\r\n") then n + 2 else if n < |text| then n + 1 else n;
      [text[..n]] + SplitLines(text[next..])
  }

  predicate IsChange(line: string) {
    || (StartsWith(line, "+") && !StartsWith(line, "+++"))
    || (StartsWith(line, "-") && !StartsWith(line, "---"))
  }

  function ChangedLines(lines: seq<string>): nat {
    if lines == [] then 0 else (if IsChange(lines[0]) then 1 else 0) + ChangedLines(lines[1..])
  }

  /** What the tool asks of its surroundings: the repository, path resolution and the two name lists. */
  datatype Gates = Gates(
    isGit: bool,
    inside: string -> bool,
    allowedExtension: string -> bool,
    guarded: string -> bool)

  datatype Refusal =
    | NotGit | NoFiles | TooManyFiles | Outside(path: string) | Extension(path: string)
    | Guarded(path: string) | Undeclared | NewFile(path: string) | TooManyLines

  function FirstSuch(paths: seq<string>, bad: string -> bool): (first: Option<string>)
    ensures first.None? <==> forall p :: p in paths ==> !bad(p)
    ensures first.Some? ==> first.value in paths && bad(first.value)
  {
    if paths == [] then None
    else if bad(paths[0]) then Some(paths[0])
    else FirstSuch(paths[1..], bad)
  }

  /** The first gate that a patch fails, in the order in which they are tried. */
  function Verdict(files: Workspace, patch: string, gates: Gates, declared: seq<string>,
                   allowNew: bool): Option<Refusal> {
    var lines := SplitLines(patch);
    var paths := Manifest(lines);
    var outside := FirstSuch(paths, p => !gates.inside(p));
    var extension := FirstSuch(paths, p => !gates.allowedExtension(p));
    var guarded := FirstSuch(paths, gates.guarded);
    var absent := FirstSuch(paths, p => p !in files);
    if !gates.isGit then Some(NotGit)
    else if paths == [] then Some(NoFiles)
    else if |paths| > MAX_FILES then Some(TooManyFiles)
    else if outside.Some? then Some(Outside(outside.value))
    else if extension.Some? then Some(Extension(extension.value))
    else if guarded.Some? then Some(Guarded(guarded.value))
    else if declared != [] && exists p :: p in paths && p !in declared then Some(Undeclared)
    else if !allowNew && absent.Some? then Some(NewFile(absent.value))
    else if ChangedLines(lines) > MAX_LINES then Some(TooManyLines)
    else None
  }

  /** What a patch must satisfy to be tried at all. */
  ghost predicate Admitted(files: Workspace, patch: string, gates: Gates, declared: seq<string>, allowNew: bool) {
    var paths := Manifest(SplitLines(patch));
    && gates.isGit
    && 1 <= |paths| <= MAX_FILES
    && ChangedLines(SplitLines(patch)) <= MAX_LINES
    && forall p :: p in paths ==>
         && gates.inside(p) && gates.allowedExtension(p) && !gates.guarded(p)
         && (declared == [] || p in declared)
         && (allowNew || p in files)
  }

  lemma AdmittedIff(files: Workspace, patch: string, gates: Gates, declared: seq<string>, allowNew: bool)
    ensures Verdict(files, patch, gates, declared, allowNew).None? <==>
              Admitted(files, patch, gates, declared, allowNew)
  {
  }

  // ----- The tool -----

  /** How the file system and git behave in one call: whether the files to be saved can be read, the answers
      of the dry run and of the application, the files git leaves behind, and the fault of the rollback. */
  datatype GitRun = GitRun(readable: bool, dryRun: bool, applies: bool, after: Workspace, rollback: Fault)

  datatype Reply =
    | Refused(why: Refusal)
    | DryRunFailed
    | RolledBack
    | ToolRaised
    | Applied(changed: seq<string>, snapshot: Snapshot)

  function Apply(files: Workspace, patch: string, gates: Gates, declared: seq<string>, allowNew: bool, run: GitRun)
      : (Reply, Workspace) {
    var verdict := Verdict(files, patch, gates, declared, allowNew);
    var paths := Manifest(SplitLines(patch));
    var snapshot := SnapshotOf(files, paths);
    if verdict.Some? then (Refused(verdict.value), files)
    else if !run.readable then (ToolRaised, files)
    else if !run.dryRun then (DryRunFailed, files)
    else if run.applies then (Applied(paths, snapshot), run.after)
    else (if Hits(run.rollback, snapshot) then ToolRaised else RolledBack,
          AfterRollback(run.after, snapshot, run.rollback))
  }

  /** git writes only to files that the patch names in its `+++` headers. */
  ghost predicate Confined(files: Workspace, patch: string, run: GitRun) {
    OnlyTouches(files, run.after, Manifest(SplitLines(patch)))
  }

  /** A patch that is not applied leaves every file as it was, unless the tool's own rollback fails. */
  lemma RefusalLeavesFiles(files: Workspace, patch: string, gates: Gates, declared: seq<string>, allowNew: bool,
                           run: GitRun)
    requires Confined(files, patch, run)
    ensures var (reply, after) := Apply(files, patch, gates, declared, allowNew, run);
            && (reply.Applied? ==> Admitted(files, patch, gates, declared, allowNew) && after == run.after)
            && (reply.Applied? ==>
                 reply.snapshot == SnapshotOf(files, reply.changed) && OnlyTouches(files, after, reply.changed))
            && (!reply.Applied? && run.rollback.NoFault? ==> after == files)
            && (!reply.Applied? && !reply.ToolRaised? ==> after == files)
  {
    AdmittedIff(files, patch, gates, declared, allowNew);
    RollbackRestoresIff(files, run.after, Manifest(SplitLines(patch)));
  }

  /** git fails after the dry run, and writing the old contents back stops at some entry: the file of that entry is left
      with other content, or a later file keeps what git had written. */
  ghost predicate RollbackBreaks(files: Workspace, patch: string, gates: Gates, declared: seq<string>, allowNew: bool,
                                 run: GitRun) {
    var paths := Manifest(SplitLines(patch));
    && Admitted(files, patch, gates, declared, allowNew)
    && run.readable && run.dryRun && !run.applies
    && run.rollback.Fault? && run.rollback.at < |paths|
    && (run.rollback.left != Content(files, paths[run.rollback.at]) ||
         LaterDiffers(files, run.after, paths, run.rollback.at))
  }

  ghost predicate LaterDiffers(files: Workspace, after: Workspace, paths: seq<string>, at: nat) {
    exists k :: at < k < |paths| && Content(after, paths[k]) != Content(files, paths[k])
  }

  lemma BrokenAt(files: Workspace, after: Workspace, paths: seq<string>, fault: Fault, p: string)
    requires fault.Fault? && fault.at < |paths|
    ensures Content(AfterRollback(after, SnapshotOf(files, paths), fault), p) ==
              if p == paths[fault.at] then fault.left
              else if p in paths[..fault.at] then Content(files, p)
              else Content(after, p)
  {
    RestoredAt(after, files, paths, fault.at, p);
  }

  /** A rollback that stops half-way leaves the workspace as it was only if nothing was still to be written back. */
  lemma BrokenRollbackIff(files: Workspace, after: Workspace, paths: seq<string>, fault: Fault)
    requires fault.Fault? && fault.at < |paths| && OnlyTouches(files, after, paths)
    requires forall i, j :: 0 <= i < j < |paths| ==> paths[i] != paths[j]
    ensures AfterRollback(after, SnapshotOf(files, paths), fault) != files <==>
            fault.left != Content(files, paths[fault.at]) || LaterDiffers(files, after, paths, fault.at)
  {
    hide AfterRollback, SnapshotOf;
    var end := AfterRollback(after, SnapshotOf(files, paths), fault);
    BrokenAt(files, after, paths, fault, paths[fault.at]);
    if LaterDiffers(files, after, paths, fault.at) {
      var k :| fault.at < k < |paths| && Content(after, paths[k]) != Content(files, paths[k]);
      BrokenAt(files, after, paths, fault, paths[k]);
      assert paths[k] !in paths[..fault.at];
    } else if fault.left == Content(files, paths[fault.at]) {
      assert forall k :: 0 <= k < fault.at ==> paths[k] in paths[..fault.at];
      forall p ensures Content(end, p) == Content(files, p) {
        BrokenAt(files, after, paths, fault, p);
        if p in paths && p != paths[fault.at] && p !in paths[..fault.at] {
          var k :| 0 <= k < |paths| && paths[k] == p;
          assert k > fault.at;
        }
      }
      SameContent(end, files);
    }
  }

  /** Exactly when a call that does not apply its patch leaves the workspace changed. */
  lemma DirtyIff(files: Workspace, patch: string, gates: Gates, declared: seq<string>, allowNew: bool, run: GitRun)
    requires Confined(files, patch, run)
    ensures var (reply, after) := Apply(files, patch, gates, declared, allowNew, run);
            !reply.Applied? ==> (after != files <==> RollbackBreaks(files, patch, gates, declared, allowNew, run))
  {
    hide Verdict, Admitted, AfterRollback, SplitLines, Manifest;
    var paths := Manifest(SplitLines(patch));
    AdmittedIff(files, patch, gates, declared, allowNew);
    RefusalLeavesFiles(files, patch, gates, declared, allowNew, run);
    ManifestIsFirstAppearances(SplitLines(patch));
    if run.rollback.Fault? && run.rollback.at < |paths| {
      BrokenRollbackIff(files, run.after, paths, run.rollback);
    }
  }

  class Repository {
    var files: Workspace

    constructor (files: Workspace)
      ensures this.files == files
    {
      this.files := files;
    }

    method FirstOffender(paths: seq<string>, bad: string -> bool) returns (first: Option<string>)
      ensures first == FirstSuch(paths, bad)
    {
      var i := 0;
      while i < |paths|
        invariant 0 <= i <= |paths|
        invariant FirstSuch(paths, bad) == FirstSuch(paths[i..], bad)
      {
        if bad(paths[i]) {
          return Some(paths[i]);
        }
        i := i + 1;
      }
      first := None;
    }

    method RollbackFiles(snapshot: Snapshot, fault: Fault) returns (done: bool)
      modifies this
      ensures done <==> !Hits(fault, snapshot)
      ensures files == AfterRollback(old(files), snapshot, fault)
    {
      for i := 0 to |snapshot|
        invariant files == Restored(old(files), snapshot, i)
        invariant fault.Fault? ==> i <= fault.at
      {
        if fault.Fault? && fault.at == i {
          files := Put(files, Saved(snapshot[i].path, fault.left));
          return false;
        }
        files := Put(files, snapshot[i]);
      }
      done := true;
    }

    method ApplyUnifiedDiff(patch: string, gates: Gates, declared: seq<string>, allowNew: bool, run: GitRun)
      returns (reply: Reply)
      modifies this
      ensures (reply, files) == Apply(old(files), patch, gates, declared, allowNew, run)
    {
      if !gates.isGit {
        return Refused(NotGit);
      }
      var lines := SplitLines(patch);
      var changed := ParsePatchManifest(lines);
      if changed == [] {
        return Refused(NoFiles);
      }
      if |changed| > MAX_FILES {
        return Refused(TooManyFiles);
      }
      var outside := FirstOffender(changed, p => !gates.inside(p));
      if outside.Some? {
        return Refused(Outside(outside.value));
      }
      var extension := FirstOffender(changed, p => !gates.allowedExtension(p));
      if extension.Some? {
        return Refused(Extension(extension.value));
      }
      var guarded := FirstOffender(changed, gates.guarded);
      if guarded.Some? {
        return Refused(Guarded(guarded.value));
      }
      if declared != [] {
        var undeclared := (set p | p in changed) - (set p | p in declared);
        if undeclared != {} {
          assert exists p :: p in undeclared;
          return Refused(Undeclared);
        }
        assert forall p :: p in changed ==> p in declared by {
          forall p | p in changed ensures p in declared {
            assert p !in undeclared;
          }
        }
      }
      if !allowNew {
        var present := files;
        var absent := FirstOffender(changed, p => p !in present);
        if absent.Some? {
          return Refused(NewFile(absent.value));
        }
      }
      if ChangedLines(lines) > MAX_LINES {
        return Refused(TooManyLines);
      }
      if !run.readable {
        return ToolRaised;
      }
      var snapshot := SnapshotFiles(files, changed);
      if !run.dryRun {
        return DryRunFailed;
      }
      files := run.after;
      if !run.applies {
        var done := RollbackFiles(snapshot, run.rollback);
        return if done then RolledBack else ToolRaised;
      }
      reply := Applied(changed, snapshot);
    }
  }
}
