/** The local coding controller: draft a patch, apply it, validate, roll back, try again, escalate. */
module PatchLoop {
  import opened PatchFiles
  import opened PatchTool
  import opened Text

  datatype TaskKind = ReadOnly | Mutating | Unknown

  /** What the checks before any local work come to; reading the context file may raise. */
  datatype Preflight = Proceed | TooRisky | Unreadable

  datatype Request = Request(
    kind: TaskKind,
    preflight: Preflight,
    declared: seq<string>,
    lintTarget: bool,
    pytestTarget: bool)

  datatype Config = Config(hasRoot: bool, maxAttempts: int, maxPatchChars: int)

  /** One answer of the local worker; the patch is empty when none could be extracted. */
  datatype Answer = Crashed | Escalates | Fails | Answers(patch: string)

  /** Everything outside the controller during one attempt: the worker, git, the three validators,
      and the rollback of this attempt's patch. */
  datatype World = World(answer: Answer, git: GitRun, compiles: bool, lints: bool, tests: bool, undo: Fault)

  /** The surroundings by attempt number: every behaviour of worker, git and validators. */
  type Script = nat -> World

  datatype Step = ApplyPatch | PyCompile | Lint | Pytest

  datatype Validation = Validation(success: bool, step: Step)

  datatype Status = Success | Fail | Escalate

  datatype Reason =
    | Declined | FromWorker | NoPatch | PatchTooLarge | ApplicationFailed
    | ValidationFailed | Exceeded | Critical | Passed

  datatype Outcome =
    | Returned(status: Status, reason: Reason, validations: seq<Validation>, attempts: nat)
    | Raised

  predicate Failing(v: Validation) {
    !v.success && !v.step.ApplyPatch?
  }

  predicate HasFailure(validations: seq<Validation>) {
    exists i :: 0 <= i < |validations| && Failing(validations[i])
  }

  function PostValidations(req: Request, world: World): (checks: seq<Validation>)
    ensures HasFailure(checks) <==> !Sound(req, world)
  {
    var compile := [Validation(world.compiles, PyCompile)];
    var lint := if req.lintTarget then [Validation(world.lints, Lint)] else [];
    var test := if req.pytestTarget then [Validation(world.tests, Pytest)] else [];
    var checks := compile + lint + test;
    assert checks[0] == compile[0];
    assert req.lintTarget ==> checks[1] == lint[0];
    assert req.pytestTarget ==> checks[|checks| - 1] == test[0];
    checks
  }

  /** Every validator that the request asks for accepts. */
  predicate Sound(req: Request, world: World) {
    world.compiles && (req.lintTarget ==> world.lints) && (req.pytestTarget ==> world.tests)
  }

  // ----- The loop as a function -----

  /** A patch that stands in the workspace and can be undone. */
  datatype Undo = Undo(changed: seq<string>, snapshot: Snapshot)

  /** The loop variables, with the workspace. */
  datatype Loop = Loop(files: Workspace, attempts: nat, validations: seq<Validation>, pending: Option<Undo>)

  datatype Turn = Done(outcome: Outcome, files: Workspace) | Again(loop: Loop)

  /** `_rollback_from_snapshot` of the patch that is pending, if any. */
  function UndoPending(s: Loop, undo: Fault): Workspace {
    if s.pending.Some? then AfterRollback(s.files, s.pending.value.snapshot, undo) else s.files
  }

  predicate UndoFails(s: Loop, undo: Fault) {
    s.pending.Some? && Hits(undo, s.pending.value.snapshot)
  }

  /** One attempt on a clean workspace. */
  function Attempt(cfg: Config, gates: Gates, req: Request, world: World,
                   files: Workspace, attempts: nat, before: seq<Validation>): Turn {
    match world.answer
    case Crashed => Done(Raised, files)
    case Escalates => Done(Returned(Escalate, FromWorker, [], attempts), files)
    case Fails => Done(Returned(Fail, FromWorker, [], attempts), files)
    case Answers(patch) =>
      if patch == "" then Done(Returned(Escalate, NoPatch, [], attempts), files)
      else if |patch| > cfg.maxPatchChars then Done(Returned(Escalate, PatchTooLarge, [], attempts), files)
      else
        var (reply, after) := Apply(files, patch, gates, req.declared, false, world.git);
        if !reply.Applied? then
          Done(Returned(Escalate, ApplicationFailed, before + [Validation(false, ApplyPatch)], attempts), after)
        else
          var validations := before + [Validation(true, ApplyPatch)] + PostValidations(req, world);
          var s := Loop(after, attempts, validations, Some(Undo(reply.changed, reply.snapshot)));
          if !HasFailure(validations) then Done(Returned(Success, Passed, validations, attempts), after)
          else if attempts > cfg.maxAttempts then
            Done(Returned(Escalate, if UndoFails(s, world.undo) then Critical else ValidationFailed,
                          if UndoFails(s, world.undo) then [] else validations, attempts),
                 UndoPending(s, world.undo))
          else Again(s)
  }

  function Run(cfg: Config, gates: Gates, req: Request, script: Script, s: Loop): (Outcome, Workspace)
    decreases cfg.maxAttempts + 1 - s.attempts
  {
    var undo := script(s.attempts).undo;
    var clean := UndoPending(s, undo);
    if UndoFails(s, undo) then (Returned(Escalate, Critical, [], s.attempts), clean)
    else if s.attempts > cfg.maxAttempts then (Returned(Escalate, Exceeded, s.validations, s.attempts), clean)
    else
      match Attempt(cfg, gates, req, script(s.attempts + 1), clean, s.attempts + 1, s.validations)
      case Done(outcome, files) => (outcome, files)
      case Again(next) => Run(cfg, gates, req, script, next)
  }

  function Handled(cfg: Config, gates: Gates, req: Request, script: Script, files: Workspace): (Outcome, Workspace) {
    if req.kind.Mutating? && !cfg.hasRoot then (Returned(Escalate, Declined, [], 0), files)
    else if req.preflight.TooRisky? then (Returned(Escalate, Declined, [], 0), files)
    // The tool table has no entry for an unknown kind of task, so looking it up raises.
    else if req.preflight.Unreadable? || req.kind.Unknown? then (Raised, files)
    else if req.kind.ReadOnly? then
      match script(1).answer
      case Crashed => (Raised, files)
      case Escalates => (Returned(Escalate, FromWorker, [], 1), files)
      case Fails => (Returned(Fail, FromWorker, [], 1), files)
      case Answers(_) => (Returned(Success, FromWorker, [], 1), files)
    else Run(cfg, gates, req, script, Loop(files, 0, [], None))
  }

  // ----- The controller -----

  class EscalationController {
    const cfg: Config
    const gates: Gates
    const repository: Repository

    constructor (cfg: Config, gates: Gates, repository: Repository)
      ensures this.cfg == cfg && this.gates == gates && this.repository == repository
    {
      this.cfg, this.gates, this.repository := cfg, gates, repository;
    }

    method Handle(req: Request, script: Script) returns (outcome: Outcome)
      modifies repository
      ensures (outcome, repository.files) == Handled(cfg, gates, req, script, old(repository.files))
    {
      if (req.kind.Mutating? && !cfg.hasRoot) || req.preflight.TooRisky? {
        return Returned(Escalate, Declined, [], 0);
      }
      if req.preflight.Unreadable? || req.kind.Unknown? {
        return Raised;
      }
      if req.kind.ReadOnly? {
        match script(1).answer {
          case Crashed => return Raised;
          case Escalates => return Returned(Escalate, FromWorker, [], 1);
          case Fails => return Returned(Fail, FromWorker, [], 1);
          case Answers(_) => return Returned(Success, FromWorker, [], 1);
        }
      }
      outcome := Repair(req, script);
    }

    method Repair(req: Request, script: Script) returns (outcome: Outcome)
      modifies repository
      ensures (outcome, repository.files) ==
              Run(cfg, gates, req, script, Loop(old(repository.files), 0, [], None))
    {
      var attempts: nat := 0;
      var validations: seq<Validation> := [];
      var pending: Option<Undo> := None;
      ghost var goal := Run(cfg, gates, req, script, Loop(repository.files, 0, [], None));
      while attempts <= cfg.maxAttempts
        invariant Run(cfg, gates, req, script, Loop(repository.files, attempts, validations, pending)) == goal
      {
        hide Apply, AfterRollback, HasFailure;
        if pending.Some? {
          var undone := repository.RollbackFiles(pending.value.snapshot, script(attempts).undo);
          if !undone {
            return Returned(Escalate, Critical, [], attempts);
          }
          pending := None;
        }
        attempts := attempts + 1;
        var world := script(attempts);
        if !world.answer.Answers? {
          return if world.answer.Crashed? then Raised
                 else Returned(if world.answer.Escalates? then Escalate else Fail, FromWorker, [], attempts);
        }
        var patch := world.answer.patch;
        if patch == "" {
          return Returned(Escalate, NoPatch, [], attempts);
        }
        if |patch| > cfg.maxPatchChars {
          return Returned(Escalate, PatchTooLarge, [], attempts);
        }
        var reply := repository.ApplyUnifiedDiff(patch, gates, req.declared, false, world.git);
        validations := validations + [Validation(reply.Applied?, ApplyPatch)];
        if !reply.Applied? {
          return Returned(Escalate, ApplicationFailed, validations, attempts);
        }
        pending := Some(Undo(reply.changed, reply.snapshot));
        validations := validations + PostValidations(req, world);
        if !HasFailure(validations) {
          return Returned(Success, Passed, validations, attempts);
        }
        if attempts > cfg.maxAttempts {
          var undone := repository.RollbackFiles(reply.snapshot, world.undo);
          if !undone {
            return Returned(Escalate, Critical, [], attempts);
          }
          return Returned(Escalate, ValidationFailed, validations, attempts);
        }
      }
      if pending.Some? {
        var undone := repository.RollbackFiles(pending.value.snapshot, script(attempts).undo);
        if !undone {
          return Returned(Escalate, Critical, [], attempts);
        }
      }
      outcome := Returned(Escalate, Exceeded, validations, attempts);
    }
  }

  // ----- What a run guarantees -----

  /** git changes only files that the patch of the attempt names. */
  ghost predicate GitIsConfined(script: Script, start: Workspace) {
    forall k: nat :: script(k).answer.Answers? ==> Confined(start, script(k).answer.patch, script(k).git)
  }

  /** A pending patch is exactly what separates the workspace from its start. */
  ghost predicate UndoesTo(s: Loop, start: Workspace) {
    match s.pending
    case None => s.files == start
    case Some(undo) => undo.snapshot == SnapshotOf(start, undo.changed) && OnlyTouches(start, s.files, undo.changed)
  }

  /** After the first attempt some validator has already rejected. */
  ghost predicate LoopInv(s: Loop) {
    && (s.pending.Some? ==> s.attempts > 0)
    && (s.attempts > 0 ==> HasFailure(s.validations))
  }

  /** The tool's own rollback, run when git fails half-way, breaks down before all is written back. */
  ghost predicate ToolLeavesDirty(gates: Gates, req: Request, world: World, start: Workspace) {
    world.answer.Answers? && RollbackBreaks(start, world.answer.patch, gates, req.declared, false, world.git)
  }

  predicate Landed(outcome: Outcome) {
    outcome.Returned? && outcome.status.Success?
  }

  predicate Alarmed(outcome: Outcome) {
    outcome.Returned? && outcome.reason.Critical?
  }

  lemma UndoRestores(s: Loop, start: Workspace, undo: Fault)
    requires UndoesTo(s, start)
    ensures !UndoFails(s, undo) ==> UndoPending(s, undo) == start
  {
    if s.pending.Some? {
      RollbackRestoresIff(start, s.files, s.pending.value.changed);
    }
  }

  lemma MoreFailures(a: seq<Validation>, b: seq<Validation>)
    ensures HasFailure(a + b) <==> HasFailure(a) || HasFailure(b)
  {
    if HasFailure(a) {
      var i :| 0 <= i < |a| && Failing(a[i]);
      assert Failing((a + b)[i]);
    }
    if HasFailure(b) {
      var i :| 0 <= i < |b| && Failing(b[i]);
      assert Failing((a + b)[|a| + i]);
    }
  }

  lemma NothingFailed()
    ensures !HasFailure([])
  {
  }

  lemma ChecksFail(before: seq<Validation>, req: Request, world: World)
    ensures HasFailure(before + [Validation(true, ApplyPatch)] + PostValidations(req, world)) <==>
              HasFailure(before) || !Sound(req, world)
  {
    MoreFailures(before, [Validation(true, ApplyPatch)]);
    MoreFailures(before + [Validation(true, ApplyPatch)], PostValidations(req, world));
  }

  /** What one attempt can come to, as far as the loop is concerned. */
  ghost predicate TurnOk(cfg: Config, world: World, attempts: nat, turn: Turn) {
    match turn
    case Again(next) => LoopInv(next) && next.attempts == attempts <= cfg.maxAttempts
    case Done(outcome, files) =>
      && (Alarmed(outcome) ==> world.undo.Fault?)
      && (outcome.Returned? ==> outcome.attempts == attempts && !outcome.reason.Exceeded? && !outcome.reason.Declined?)
  }

  lemma AttemptOk(cfg: Config, gates: Gates, req: Request, world: World, files: Workspace, attempts: nat,
                  before: seq<Validation>)
    requires attempts > 0
    ensures var turn := Attempt(cfg, gates, req, world, files, attempts, before);
            && TurnOk(cfg, world, attempts, turn)
            && (HasFailure(before) && turn.Done? ==> !Landed(turn.outcome))
  {
    hide Apply, AfterRollback, HasFailure, Sound, PostValidations;
    ChecksFail(before, req, world);
  }

  predicate Stopped(outcome: Outcome) {
    outcome.Returned? && outcome.reason.ApplicationFailed?
  }

  /** What one attempt leaves in the workspace. */
  ghost predicate TurnClean(gates: Gates, req: Request, world: World, start: Workspace, turn: Turn) {
    match turn
    case Again(next) => UndoesTo(next, start)
    case Done(outcome, files) =>
      !Landed(outcome) && !Alarmed(outcome) ==>
        (files == start <==> !(Stopped(outcome) && ToolLeavesDirty(gates, req, world, start)))
  }

  lemma AttemptClean(cfg: Config, gates: Gates, req: Request, world: World, start: Workspace, attempts: nat,
                     before: seq<Validation>)
    requires world.answer.Answers? ==> Confined(start, world.answer.patch, world.git)
    ensures TurnClean(gates, req, world, start, Attempt(cfg, gates, req, world, start, attempts, before))
  {
    hide Apply, AfterRollback, HasFailure, Restored, SnapshotOf, OnlyTouches, Confined, Sound, PostValidations,
         RollbackBreaks;
    if world.answer.Answers? {
      var patch := world.answer.patch;
      DirtyIff(start, patch, gates, req.declared, false, world.git);
      RefusalLeavesFiles(start, patch, gates, req.declared, false, world.git);
      var (reply, after) := Apply(start, patch, gates, req.declared, false, world.git);
      if reply.Applied? {
        var validations := before + [Validation(true, ApplyPatch)] + PostValidations(req, world);
        UndoRestores(Loop(after, attempts, validations, Some(Undo(reply.changed, reply.snapshot))), start, world.undo);
      }
    }
  }

  function Max(a: int, b: int): int {
    if a < b then b else a
  }

  /** The end of a run, from any point between two attempts. */
  ghost predicate RunOk(cfg: Config, script: Script, from: nat, outcome: Outcome) {
    && (outcome.Returned? ==> outcome.attempts <= Max(from, cfg.maxAttempts + 1))
    && (Alarmed(outcome) ==> outcome.attempts > 0 && script(outcome.attempts).undo.Fault?)
    && (outcome.Returned? && outcome.reason.Exceeded? ==> from > cfg.maxAttempts)
    && (outcome.Returned? ==> !outcome.reason.Declined?)
    && (from > 0 ==> !Landed(outcome))
  }

  lemma {:induction false} RunIsOk(cfg: Config, gates: Gates, req: Request, script: Script, s: Loop)
    requires LoopInv(s)
    ensures RunOk(cfg, script, s.attempts, Run(cfg, gates, req, script, s).0)
    decreases cfg.maxAttempts + 1 - s.attempts
  {
    hide Attempt, AfterRollback, HasFailure;
    var undo := script(s.attempts).undo;
    if !UndoFails(s, undo) && s.attempts <= cfg.maxAttempts {
      var clean := UndoPending(s, undo);
      AttemptOk(cfg, gates, req, script(s.attempts + 1), clean, s.attempts + 1, s.validations);
      var turn := Attempt(cfg, gates, req, script(s.attempts + 1), clean, s.attempts + 1, s.validations);
      if turn.Again? {
        RunIsOk(cfg, gates, req, script, turn.loop);
      }
    }
  }

  lemma {:induction false} RunIsClean(cfg: Config, gates: Gates, req: Request, script: Script, s: Loop,
                                      start: Workspace)
    requires LoopInv(s) && UndoesTo(s, start) && GitIsConfined(script, start)
    ensures var (outcome, files) := Run(cfg, gates, req, script, s);
            !Landed(outcome) && !Alarmed(outcome) ==>
              (files == start <==> !(Stopped(outcome) && ToolLeavesDirty(gates, req, script(outcome.attempts), start)))
    decreases cfg.maxAttempts + 1 - s.attempts
  {
    hide Attempt, ToolLeavesDirty, AfterRollback, HasFailure, UndoesTo, Confined;
    var undo := script(s.attempts).undo;
    UndoRestores(s, start, undo);
    if !UndoFails(s, undo) && s.attempts <= cfg.maxAttempts {
      AttemptOk(cfg, gates, req, script(s.attempts + 1), start, s.attempts + 1, s.validations);
      AttemptClean(cfg, gates, req, script(s.attempts + 1), start, s.attempts + 1, s.validations);
      var turn := Attempt(cfg, gates, req, script(s.attempts + 1), start, s.attempts + 1, s.validations);
      if turn.Again? {
        RunIsClean(cfg, gates, req, script, turn.loop, start);
      }
    }
  }

  /** For every behaviour of the worker, the validators and a git that changes only the files a patch names:
      a result that is neither a success nor marked CRITICAL leaves the workspace byte for byte as it was,
      unless the patch tool's own rollback broke down, and only then. */
  lemma FailureLeavesWorkspaceIff(cfg: Config, gates: Gates, req: Request, script: Script, start: Workspace)
    requires GitIsConfined(script, start)
    ensures var (outcome, files) := Handled(cfg, gates, req, script, start);
            !Landed(outcome) && !Alarmed(outcome) ==>
              (files == start <==> !(Stopped(outcome) && ToolLeavesDirty(gates, req, script(outcome.attempts), start)))
  {
    hide Run, ToolLeavesDirty, Confined, HasFailure;
    RunIsClean(cfg, gates, req, script, Loop(start, 0, [], None), start);
  }

  /** The worker is asked at most once more than the number of repairs allowed, and the loop runs out
      by its own test only when that number is negative. */
  lemma AttemptsBounded(cfg: Config, gates: Gates, req: Request, script: Script, start: Workspace)
    requires req.kind.Mutating?
    ensures var (outcome, _) := Handled(cfg, gates, req, script, start);
            outcome.Returned? ==>
              && outcome.attempts <= Max(0, cfg.maxAttempts + 1)
              && (outcome.reason.Exceeded? <==> cfg.maxAttempts < 0 && !outcome.reason.Declined?)
  {
    hide ToolLeavesDirty, Confined, HasFailure, Attempt;
    RunIsOk(cfg, gates, req, script, Loop(start, 0, [], None));
  }

  /** The first patch is applied and every validator accepts it. */
  ghost predicate FirstPatchStands(cfg: Config, gates: Gates, req: Request, world: World, start: Workspace) {
    && world.answer.Answers?
    && var patch := world.answer.patch;
       && 0 < |patch| <= cfg.maxPatchChars
       && Admitted(start, patch, gates, req.declared, false)
       && world.git.readable && world.git.dryRun && world.git.applies
       && Sound(req, world)
  }

  lemma NothingPending(start: Workspace, undo: Fault)
    ensures UndoPending(Loop(start, 0, [], None), undo) == start
  {
  }

  lemma FirstAttempt(cfg: Config, gates: Gates, req: Request, world: World, start: Workspace)
    ensures var turn := Attempt(cfg, gates, req, world, start, 1, []);
            && (turn.Done? && Landed(turn.outcome) <==> FirstPatchStands(cfg, gates, req, world, start))
            && (turn.Done? && Landed(turn.outcome) ==>
                  && turn.files == world.git.after
                  && turn.outcome == Returned(Success, Passed,
                       [Validation(true, ApplyPatch)] + PostValidations(req, world), 1)
                  && !HasFailure(turn.outcome.validations))
  {
    hide HasFailure, Verdict, Admitted, PostValidations, AfterRollback, Sound, Manifest, SplitLines;
    if world.answer.Answers? {
      AdmittedIff(start, world.answer.patch, gates, req.declared, false);
      var checks := PostValidations(req, world);
      ChecksFail([], req, world);
      assert [] + [Validation(true, ApplyPatch)] + checks == [Validation(true, ApplyPatch)] + checks;
      NothingFailed();
    }
  }

  /** Success is possible on the first attempt only, because the record of failed validations is never cleared:
      it is reported exactly when the first patch is applied and accepted, and then that patch is all that changed. */
  lemma SuccessIff(cfg: Config, gates: Gates, req: Request, script: Script, start: Workspace)
    requires req.kind.Mutating?
    ensures var (outcome, files) := Handled(cfg, gates, req, script, start);
            && (Landed(outcome) <==>
                  && cfg.hasRoot && req.preflight.Proceed? && cfg.maxAttempts >= 0
                  && FirstPatchStands(cfg, gates, req, script(1), start))
            && (Landed(outcome) ==>
                  && files == script(1).git.after
                  && outcome == Returned(Success, Passed,
                       [Validation(true, ApplyPatch)] + PostValidations(req, script(1)), 1)
                  && !HasFailure(outcome.validations))
  {
    hide Attempt, UndoPending, HasFailure, FirstPatchStands, ToolLeavesDirty, Confined;
    FirstAttempt(cfg, gates, req, script(1), start);
    AttemptOk(cfg, gates, req, script(1), start, 1, []);
    var turn := Attempt(cfg, gates, req, script(1), start, 1, []);
    assert UndoPending(Loop(start, 0, [], None), script(0).undo) == start by { NothingPending(start, script(0).undo); }
    if turn.Again? {
      RunIsOk(cfg, gates, req, script, turn.loop);
    }
  }

  /** Allowing repairs never turns a failure into a success, nor changes a success. */
  lemma RepairNeverHelps(cfg: Config, gates: Gates, req: Request, script: Script, start: Workspace, more: nat)
    requires req.kind.Mutating? && cfg.maxAttempts >= 0
    ensures var (outcome, files) := Handled(cfg, gates, req, script, start);
            var (other, otherFiles) := Handled(cfg.(maxAttempts := more), gates, req, script, start);
            && (Landed(outcome) <==> Landed(other))
            && (Landed(outcome) ==> outcome == other && files == otherFiles)
  {
    hide Handled;
    SuccessIff(cfg, gates, req, script, start);
    SuccessIff(cfg.(maxAttempts := more), gates, req, script, start);
  }

  /** The records of the first n attempts, when each of their patches was applied. */
  ghost function History(req: Request, script: Script, n: nat): seq<Validation> {
    if n == 0 then []
    else History(req, script, n - 1) + [Validation(true, ApplyPatch)] + PostValidations(req, script(n))
  }

  /** The worker's patch passes every gate and git applies it. */
  ghost predicate PatchLands(cfg: Config, gates: Gates, req: Request, world: World, start: Workspace) {
    && world.answer.Answers?
    && 0 < |world.answer.patch| <= cfg.maxPatchChars
    && Apply(start, world.answer.patch, gates, req.declared, false, world.git).0.Applied?
  }

  lemma {:induction false} RunExhausts(cfg: Config, gates: Gates, req: Request, script: Script, s: Loop,
                                       start: Workspace)
    requires LoopInv(s) && UndoesTo(s, start) && GitIsConfined(script, start)
    requires forall k :: 1 <= k <= cfg.maxAttempts + 1 ==>
               PatchLands(cfg, gates, req, script(k), start) && script(k).undo.NoFault?
    requires !Sound(req, script(1))
    requires s.attempts <= cfg.maxAttempts && s.validations == History(req, script, s.attempts)
    ensures Run(cfg, gates, req, script, s) ==
            (Returned(Escalate, ValidationFailed, History(req, script, cfg.maxAttempts + 1), cfg.maxAttempts + 1),
                start)
    decreases cfg.maxAttempts + 1 - s.attempts
  {
    hide AfterRollback, HasFailure, UndoesTo, Confined, PostValidations, Apply, Sound, ToolLeavesDirty;
    var next := s.attempts + 1;
    var world := script(next);
    UndoRestores(s, start, script(s.attempts).undo);
    AttemptOk(cfg, gates, req, world, start, next, s.validations);
    AttemptClean(cfg, gates, req, world, start, next, s.validations);
    assert PatchLands(cfg, gates, req, world, start);
    ChecksFail(s.validations, req, world);
    var turn := Attempt(cfg, gates, req, world, start, next, s.validations);
    if turn.Again? {
      RunExhausts(cfg, gates, req, script, turn.loop, start);
    }
  }

  /** When every patch can be applied and undone but the first one is rejected by a validator, all the allowed
      repairs are spent, whatever the validators say of them, and every record of every attempt is reported. */
  lemma EveryRepairIsSpent(cfg: Config, gates: Gates, req: Request, script: Script, start: Workspace)
    requires GitIsConfined(script, start)
    requires req.kind.Mutating? && cfg.hasRoot && req.preflight.Proceed? && cfg.maxAttempts >= 0
    requires forall k :: 1 <= k <= cfg.maxAttempts + 1 ==>
               PatchLands(cfg, gates, req, script(k), start) && script(k).undo.NoFault?
    requires !Sound(req, script(1))
    ensures Handled(cfg, gates, req, script, start) ==
            (Returned(Escalate, ValidationFailed, History(req, script, cfg.maxAttempts + 1), cfg.maxAttempts + 1),
                start)
  {
    hide Run, PatchLands, Confined, HasFailure, Sound;
    RunExhausts(cfg, gates, req, script, Loop(start, 0, [], None), start);
  }

  // ----- When the result is CRITICAL -----

  /** The patch of this attempt was applied to the clean workspace, and writing its snapshot back breaks down. */
  ghost predicate UndoHits(gates: Gates, req: Request, world: World, start: Workspace) {
    && world.answer.Answers?
    && var reply := Apply(start, world.answer.patch, gates, req.declared, false, world.git).0;
       reply.Applied? && Hits(world.undo, reply.snapshot)
  }

  /** From attempt `from` on, all patches up to the n-th land and all before it are undone, but the undoing of the n-th
      breaks down. */
  ghost predicate BreaksAt(cfg: Config, gates: Gates, req: Request, script: Script, start: Workspace, from: nat,
                           n: nat) {
    && 1 <= n <= cfg.maxAttempts + 1 && from <= n
    && (forall k: nat :: from < k <= n ==> PatchLands(cfg, gates, req, script(k), start))
    && (forall k: nat :: 1 <= k && from <= k < n ==> !UndoHits(gates, req, script(k), start))
    && UndoHits(gates, req, script(n), start)
  }

  /** The pending patch, if any, is the one applied in the last attempt. */
  ghost predicate PendingIsLast(gates: Gates, req: Request, script: Script, s: Loop, start: Workspace) {
    if s.attempts == 0 then s.pending.None?
    else
      && s.pending.Some? && script(s.attempts).answer.Answers?
      && var reply := Apply(start, script(s.attempts).answer.patch, gates, req.declared, false,
           script(s.attempts).git).0;
         reply.Applied? && s.pending.value.snapshot == reply.snapshot
  }

  /** What an attempt comes to when the record will hold a failure. */
  lemma AttemptWhenFailing(cfg: Config, gates: Gates, req: Request, script: Script, start: Workspace, n: nat,
                           before: seq<Validation>)
    requires n > 0 && (HasFailure(before) || !Sound(req, script(n)))
    ensures var turn := Attempt(cfg, gates, req, script(n), start, n, before);
            && (turn.Again? <==> n <= cfg.maxAttempts && PatchLands(cfg, gates, req, script(n), start))
            && (turn.Again? ==> turn.loop.attempts == n && PendingIsLast(gates, req, script, turn.loop, start))
            && (turn.Done? ==> (Alarmed(turn.outcome) <==>
                  n > cfg.maxAttempts && PatchLands(cfg, gates, req, script(n), start) &&
                      UndoHits(gates, req, script(n), start)))
            && (turn.Done? && Alarmed(turn.outcome) ==> turn.outcome.attempts == n)
  {
    hide Apply, AfterRollback, HasFailure, Sound, PostValidations, Hits;
    ChecksFail(before, req, script(n));
  }

  lemma {:induction false} RunAlarms(cfg: Config, gates: Gates, req: Request, script: Script, s: Loop, start: Workspace)
    requires LoopInv(s) && UndoesTo(s, start) && GitIsConfined(script, start) &&
               PendingIsLast(gates, req, script, s, start)
    requires s.attempts <= cfg.maxAttempts && (s.attempts == 0 ==> !Sound(req, script(1)))
    ensures var outcome := Run(cfg, gates, req, script, s).0;
            && (Alarmed(outcome) <==> exists n: nat :: BreaksAt(cfg, gates, req, script, start, s.attempts, n))
            && (Alarmed(outcome) ==> BreaksAt(cfg, gates, req, script, start, s.attempts, outcome.attempts))
    decreases cfg.maxAttempts + 1 - s.attempts
  {
    hide Attempt, AfterRollback, HasFailure, UndoesTo, Confined, Apply, Sound, PatchLands, ToolLeavesDirty;
    var a := s.attempts;
    var undo := script(a).undo;
    UndoRestores(s, start, undo);
    assert UndoFails(s, undo) <==> a >= 1 && UndoHits(gates, req, script(a), start);
    if UndoFails(s, undo) {
      assert BreaksAt(cfg, gates, req, script, start, a, a);
    } else {
      AttemptOk(cfg, gates, req, script(a + 1), start, a + 1, s.validations);
      AttemptWhenFailing(cfg, gates, req, script, start, a + 1, s.validations);
      AttemptClean(cfg, gates, req, script(a + 1), start, a + 1, s.validations);
      var turn := Attempt(cfg, gates, req, script(a + 1), start, a + 1, s.validations);
      forall n: nat
        ensures BreaksAt(cfg, gates, req, script, start, a, n) <==>
                PatchLands(cfg, gates, req, script(a + 1), start) && BreaksAt(cfg, gates, req, script, start, a + 1, n)
      {
        BreaksLater(cfg, gates, req, script, start, a, n);
      }
      if turn.Again? {
        RunAlarms(cfg, gates, req, script, turn.loop, start);
        var outcome := Run(cfg, gates, req, script, turn.loop).0;
        if Alarmed(outcome) {
          assert BreaksAt(cfg, gates, req, script, start, a, outcome.attempts);
        }
      } else if Alarmed(turn.outcome) {
        assert BreaksAt(cfg, gates, req, script, start, a + 1, a + 1);
        assert BreaksAt(cfg, gates, req, script, start, a, a + 1);
      }
    }
  }

  lemma BreaksLater(cfg: Config, gates: Gates, req: Request, script: Script, start: Workspace, a: nat, n: nat)
    requires a >= 1 ==> !UndoHits(gates, req, script(a), start)
    ensures BreaksAt(cfg, gates, req, script, start, a, n) <==>
            PatchLands(cfg, gates, req, script(a + 1), start) && BreaksAt(cfg, gates, req, script, start, a + 1, n)
  {
    hide UndoHits, PatchLands;
  }

  /** CRITICAL is reported only when a pending rollback raised, on the attempt that it names, whatever git does. */
  lemma CriticalMeansBrokenRollback(cfg: Config, gates: Gates, req: Request, script: Script, start: Workspace)
    ensures var (outcome, _) := Handled(cfg, gates, req, script, start);
            Alarmed(outcome) ==> outcome.attempts > 0 && script(outcome.attempts).undo.Fault?
  {
    hide Run, ToolLeavesDirty, Confined, HasFailure;
    RunIsOk(cfg, gates, req, script, Loop(start, 0, [], None));
  }

  /** CRITICAL is reported exactly when some validator rejects the first patch, and some patch among the attempts,
      each of which was applied, cannot be undone while all before it could; the attempt reported is that one. */
  lemma CriticalIff(cfg: Config, gates: Gates, req: Request, script: Script, start: Workspace)
    requires GitIsConfined(script, start) && req.kind.Mutating? && cfg.hasRoot && req.preflight.Proceed?
    ensures var outcome := Handled(cfg, gates, req, script, start).0;
            && (Alarmed(outcome) <==>
                  !Sound(req, script(1)) && exists n: nat :: BreaksAt(cfg, gates, req, script, start, 0, n))
            && (Alarmed(outcome) ==> BreaksAt(cfg, gates, req, script, start, 0, outcome.attempts))
  {
    hide Run, Confined, HasFailure, Sound, UndoHits, PatchLands;
    var s := Loop(start, 0, [], None);
    if Sound(req, script(1)) {
      SoundIsNotCritical(cfg, gates, req, script, start);
    } else if cfg.maxAttempts >= 0 {
      RunAlarms(cfg, gates, req, script, s, start);
    } else {
      NoAttempt(cfg, gates, req, script, start);
    }
  }

  lemma NoAttempt(cfg: Config, gates: Gates, req: Request, script: Script, start: Workspace)
    requires cfg.maxAttempts < 0
    ensures !Alarmed(Run(cfg, gates, req, script, Loop(start, 0, [], None)).0)
  {
    hide Attempt;
  }

  /** When the validators accept the first patch, or there is none to accept, nothing is ever undone. */
  lemma SoundIsNotCritical(cfg: Config, gates: Gates, req: Request, script: Script, start: Workspace)
    requires Sound(req, script(1))
    ensures !Alarmed(Run(cfg, gates, req, script, Loop(start, 0, [], None)).0)
  {
    hide Apply, HasFailure, Sound, PostValidations, AfterRollback;
    NothingFailed();
    ChecksFail([], req, script(1));
    NothingPending(start, script(0).undo);
    assert Run(cfg, gates, req, script, Loop(start, 0, [], None)).0 ==
           if 0 > cfg.maxAttempts then Returned(Escalate, Exceeded, [], 0)
           else match Attempt(cfg, gates, req, script(1), start, 1, [])
                case Done(outcome, _) => outcome
                case Again(next) => Run(cfg, gates, req, script, next).0;
  }

  // ----- A failure that leaves the workspace dirty without saying so -----

  const SAMPLE_PATCH := "+++ a"

  lemma SamplePatchNamesOneFile()
    ensures Manifest(SplitLines(SAMPLE_PATCH)) == ["a"] && ChangedLines(SplitLines(SAMPLE_PATCH)) == 0
  {
    assert LineLength(SAMPLE_PATCH[3..]) == 2 by {
      assert SAMPLE_PATCH[3..] == " a" && " a"[1..] == "a" && "a"[1..] == "";
    }
    assert LineLength(SAMPLE_PATCH) == 5;
    assert SAMPLE_PATCH[5..] == "" && SAMPLE_PATCH[..5] == SAMPLE_PATCH;
    assert SplitLines(SAMPLE_PATCH) == [SAMPLE_PATCH];
    assert SAMPLE_PATCH[4..] == "a";
    assert BeforeTab("a") == "a";
    assert HeaderFile(SAMPLE_PATCH) == Some("a");
    assert [SAMPLE_PATCH][..0] == [];
  }

  /** If git fails half-way and writing the old content of the file back fails too, the result is an ordinary
      escalation, not a CRITICAL one, although the file has lost its content. */
  lemma BrokenToolRollbackIsNotCritical(req: Request, world: World, gates: Gates, content: Bytes, torn: Bytes)
    requires content != torn
    requires req == Request(Mutating, Proceed, [], false, false)
    requires gates.isGit && gates.inside("a") && gates.allowedExtension("a") && !gates.guarded("a")
    requires world.answer == Answers(SAMPLE_PATCH)
    requires world.git == GitRun(true, true, false, map["a" := torn], Fault(0, Some(torn)))
    ensures Handled(Config(true, 1, 25000), gates, req, _ => world, map["a" := content]) ==
            (Returned(Escalate, ApplicationFailed, [Validation(false, ApplyPatch)], 1), map["a" := torn])
  {
    hide SplitLines, Manifest, ChangedLines, HeaderFile, FirstSuch, PostValidations;
    var start := map["a" := content];
    SamplePatchNamesOneFile();
    AdmittedIff(start, SAMPLE_PATCH, gates, [], false);
    var snapshot := SnapshotOf(start, ["a"]);
    assert AfterRollback(map["a" := torn], snapshot, Fault(0, Some(torn))) == map["a" := torn];
    assert Apply(start, SAMPLE_PATCH, gates, [], false, world.git) == (ToolRaised, map["a" := torn]);
    assert [] + [Validation(false, ApplyPatch)] == [Validation(false, ApplyPatch)];
  }
}
