/** What the controller reports: which requests it declines, what it passes on, and where the repair loop ends. */
module PatchVerdicts {
  import opened PatchFiles
  import opened PatchLoop
  import opened PatchTool
  import opened Text

  /** A task that changes files needs a root to change them in, and no task may be too risky. */
  predicate Declines(cfg: Config, req: Request) {
    (req.kind.Mutating? && !cfg.hasRoot) || req.preflight.TooRisky?
  }

  /** A request is declined exactly when it must be, and then nobody is asked and nothing is touched: the result is the
      same whatever worker, git and validators would have done. */
  lemma DeclinedIff(cfg: Config, gates: Gates, req: Request, script: Script, other: Script, start: Workspace)
    ensures var (outcome, files) := Handled(cfg, gates, req, script, start);
            && (outcome.Returned? && outcome.reason.Declined? <==> Declines(cfg, req))
            && (cfg.maxAttempts >= 0 ==> (Declines(cfg, req) <==> outcome.Returned? && outcome.attempts == 0))
            && (Declines(cfg, req) ==>
                  && outcome == Returned(Escalate, Declined, [], 0) && files == start
                  && Handled(cfg, gates, req, other, start) == (outcome, files))
  {
    hide Run, HasFailure;
    RunIsOk(cfg, gates, req, script, Loop(start, 0, [], None));
    if cfg.maxAttempts >= 0 {
      RunAsks(cfg, gates, req, script, start);
    }
  }

  /** The repair loop asks the worker at least once. */
  lemma RunAsks(cfg: Config, gates: Gates, req: Request, script: Script, start: Workspace)
    requires cfg.maxAttempts >= 0
    ensures var outcome := Run(cfg, gates, req, script, Loop(start, 0, [], None)).0;
            outcome.Returned? ==> outcome.attempts > 0
  {
    hide Attempt, HasFailure;
    AttemptOk(cfg, gates, req, script(1), start, 1, []);
    var turn := Attempt(cfg, gates, req, script(1), start, 1, []);
    assert UndoPending(Loop(start, 0, [], None), script(0).undo) == start by { NothingPending(start, script(0).undo); }
    if turn.Again? {
      RunCounts(cfg, gates, req, script, turn.loop);
    }
  }

  lemma {:induction false} RunCounts(cfg: Config, gates: Gates, req: Request, script: Script, s: Loop)
    requires LoopInv(s)
    ensures var outcome := Run(cfg, gates, req, script, s).0;
            outcome.Returned? ==> outcome.attempts >= s.attempts
    decreases cfg.maxAttempts + 1 - s.attempts
  {
    hide Attempt, AfterRollback, HasFailure;
    var undo := script(s.attempts).undo;
    if !UndoFails(s, undo) && s.attempts <= cfg.maxAttempts {
      var clean := UndoPending(s, undo);
      AttemptOk(cfg, gates, req, script(s.attempts + 1), clean, s.attempts + 1, s.validations);
      var turn := Attempt(cfg, gates, req, script(s.attempts + 1), clean, s.attempts + 1, s.validations);
      if turn.Again? {
        RunCounts(cfg, gates, req, script, turn.loop);
      }
    }
  }

  predicate Reports(outcome: Outcome, status: Status) {
    outcome.Returned? && outcome.status == status
  }

  /** A task that only reads passes the worker's own verdict on, after one question and with every file as it was; a
      task of unknown kind that is not declined raises. */
  lemma ReadingPassesOn(cfg: Config, gates: Gates, req: Request, script: Script, start: Workspace)
    requires !req.kind.Mutating?
    ensures var (outcome, files) := Handled(cfg, gates, req, script, start);
            var asked, answer := req.kind.ReadOnly? && req.preflight.Proceed?, script(1).answer;
            && files == start
            && (Reports(outcome, Success) <==> asked && answer.Answers?)
            && (Reports(outcome, Fail) <==> asked && answer.Fails?)
            && (Reports(outcome, Escalate) <==> Declines(cfg, req) || (asked && answer.Escalates?))
            && (outcome.Returned? ==> outcome.validations == [] && outcome.attempts == (if asked then 1 else 0))
  {
  }

  // ----- Where the repair loop ends -----

  /** The n-th attempt is made: all patches before it were applied and undone, and a validator rejected the first. */
  ghost predicate Reaches(cfg: Config, gates: Gates, req: Request, script: Script, start: Workspace, n: nat) {
    && 1 <= n <= cfg.maxAttempts + 1
    && (forall k: nat :: 1 <= k < n ==> PatchLands(cfg, gates, req, script(k), start))
    && (forall k: nat :: 1 <= k < n ==> !UndoHits(gates, req, script(k), start))
    && (n > 1 ==> !Sound(req, script(1)))
  }

  /** The patch of the n-th attempt is applied, and a validator rejects it or has rejected the first one. */
  ghost predicate Rejected(cfg: Config, gates: Gates, req: Request, script: Script, start: Workspace, n: nat) {
    PatchLands(cfg, gates, req, script(n), start) && (n > 1 || !Sound(req, script(1)))
  }

  ghost predicate EndsAt(cfg: Config, gates: Gates, req: Request, script: Script, start: Workspace, n: nat) {
    Reaches(cfg, gates, req, script, start, n) && !Reaches(cfg, gates, req, script, start, n + 1)
  }

  /** What is reported when the n-th attempt is the last one. */
  ghost predicate Reported(cfg: Config, gates: Gates, req: Request, script: Script, start: Workspace, n: nat,
                          outcome: Outcome, files: Workspace)
    requires n > 0
  {
    var world, failed := script(n), [Validation(false, ApplyPatch)];
    if Rejected(cfg, gates, req, script, start, n) then
      if UndoHits(gates, req, world, start) then outcome == Returned(Escalate, Critical, [], n)
      else outcome == Returned(Escalate, ValidationFailed, History(req, script, n), n) && files == start
    else
      match world.answer
      case Crashed => outcome == Raised && files == start
      case Escalates => outcome == Returned(Escalate, FromWorker, [], n) && files == start
      case Fails => outcome == Returned(Fail, FromWorker, [], n) && files == start
      case Answers(patch) =>
        if patch == "" then outcome == Returned(Escalate, NoPatch, [], n) && files == start
        else if |patch| > cfg.maxPatchChars then outcome == Returned(Escalate, PatchTooLarge, [], n) && files == start
        else if PatchLands(cfg, gates, req, world, start) then
          outcome == Returned(Success, Passed, History(req, script, 1), 1) && files == world.git.after
        else
          outcome == Returned(Escalate, ApplicationFailed, History(req, script, n - 1) + failed, n)
  }

  /** A run goes exactly as far as its patches are applied, rejected and undone, and what the last attempt comes to is
      what it reports; for every script there is one such attempt. */
  lemma VerdictOfLastAttempt(cfg: Config, gates: Gates, req: Request, script: Script, start: Workspace)
    returns (n: nat)
    requires GitIsConfined(script, start)
    requires req.kind.Mutating? && cfg.hasRoot && req.preflight.Proceed? && cfg.maxAttempts >= 0
    ensures n > 0 && EndsAt(cfg, gates, req, script, start, n)
    ensures forall m: nat :: EndsAt(cfg, gates, req, script, start, m) ==> m == n
    ensures var (outcome, files) := Handled(cfg, gates, req, script, start);
            Reported(cfg, gates, req, script, start, n, outcome, files)
  {
    hide Run, PatchLands, Confined, HasFailure, Sound, UndoHits, Reported;
    n := RunVerdict(cfg, gates, req, script, Loop(start, 0, [], None), start);
  }

  lemma {:induction false} RunVerdict(cfg: Config, gates: Gates, req: Request, script: Script, s: Loop,
                                      start: Workspace)
    returns (n: nat)
    requires LoopInv(s) && UndoesTo(s, start) && GitIsConfined(script, start) &&
               PendingIsLast(gates, req, script, s, start)
    requires s.attempts <= cfg.maxAttempts && s.validations == History(req, script, s.attempts)
    requires s.attempts > 0 ==>
               Reaches(cfg, gates, req, script, start, s.attempts) &&
                   Rejected(cfg, gates, req, script, start, s.attempts)
    ensures n > 0 && EndsAt(cfg, gates, req, script, start, n)
    ensures forall m: nat :: EndsAt(cfg, gates, req, script, start, m) ==> m == n
    ensures var (outcome, files) := Run(cfg, gates, req, script, s);
            Reported(cfg, gates, req, script, start, n, outcome, files)
    decreases cfg.maxAttempts + 1 - s.attempts
  {
    hide Attempt, AfterRollback, HasFailure, UndoesTo, Confined, Apply, Sound, PatchLands, ToolLeavesDirty;
    var a := s.attempts;
    var undo := script(a).undo;
    UndoRestores(s, start, undo);
    assert UndoFails(s, undo) <==> a >= 1 && UndoHits(gates, req, script(a), start);
    if UndoFails(s, undo) {
      n := a;
    } else {
      AttemptOk(cfg, gates, req, script(a + 1), start, a + 1, s.validations);
      AttemptVerdict(cfg, gates, req, script, start, a + 1);
      AttemptClean(cfg, gates, req, script(a + 1), start, a + 1, s.validations);
      var turn := Attempt(cfg, gates, req, script(a + 1), start, a + 1, s.validations);
      if turn.Again? {
        n := RunVerdict(cfg, gates, req, script, turn.loop, start);
      } else {
        n := a + 1;
      }
    }
  }

  /** What the n-th attempt comes to on a clean workspace. */
  lemma AttemptVerdict(cfg: Config, gates: Gates, req: Request, script: Script, start: Workspace, n: nat)
    requires n > 0 && (n > 1 ==> HasFailure(History(req, script, n - 1)))
    requires script(n).answer.Answers? ==> Confined(start, script(n).answer.patch, script(n).git)
    ensures var turn := Attempt(cfg, gates, req, script(n), start, n, History(req, script, n - 1));
            && (turn.Again? <==> n <= cfg.maxAttempts && Rejected(cfg, gates, req, script, start, n))
            && (turn.Again? ==>
                  && turn.loop.attempts == n && turn.loop.validations == History(req, script, n)
                  && PendingIsLast(gates, req, script, turn.loop, start))
            && (turn.Done? ==> Reported(cfg, gates, req, script, start, n, turn.outcome, turn.files))
  {
    hide Apply, AfterRollback, HasFailure, Sound, PostValidations, Hits;
    if n == 1 {
      NothingFailed();
    }
    ChecksFail(History(req, script, n - 1), req, script(n));
    AttemptClean(cfg, gates, req, script(n), start, n, History(req, script, n - 1));
    if script(n).answer.Answers? {
      RefusalLeavesFiles(start, script(n).answer.patch, gates, req.declared, false, script(n).git);
    }
  }
}
