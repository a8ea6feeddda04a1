/** Running a list of port calls: alone, after crashes, and by several workers at once. */
module Replay {
  import opened Text
  import opened Domain
  import opened Stores

  datatype Outcome = Outcome(tables: Tables, ok: bool)

  /** Carries out ops[pc..stop] until one of them throws. */
  function RunPart(ops: seq<Op>, pc: nat, stop: nat, t: Tables): Outcome
    requires pc <= stop <= |ops|
    decreases stop - pc
  {
    if pc == stop then Outcome(t, true)
    else
      match Apply(ops[pc], t)
      case None => Outcome(t, false)
      case Some(t') => RunPart(ops, pc + 1, stop, t')
  }

  /** The uninterrupted run. */
  function Run(ops: seq<Op>, t: Tables): Outcome {
    RunPart(ops, 0, |ops|, t)
  }

  lemma RunPartExtends(ops: seq<Op>, pc: nat, stop: nat, t: Tables)
    requires pc <= stop < |ops|
    ensures var o := RunPart(ops, pc, stop, t);
            RunPart(ops, pc, stop + 1, t) ==
              if !o.ok then o
              else match Apply(ops[stop], o.tables)
                   case None => Outcome(o.tables, false)
                   case Some(t') => Outcome(t', true)
    decreases stop - pc
  {
    if pc < stop {
      match Apply(ops[pc], t)
      case None =>
      case Some(t') => RunPartExtends(ops, pc + 1, stop, t');
    }
  }

  /** A program of port calls in which every cell is written once, or cleared and then filled. */
  ghost predicate Coherent(ops: seq<Op>) {
    && (forall j :: 0 <= j < |ops| ==> OwnChunks(ops[j]))
    && (forall i, j :: 0 <= i < j < |ops| && Target(ops[i]) == Target(ops[j]) ==>
         IsRemoval(ops[i]) && IsInsertion(ops[j]))
    && (forall j :: 0 <= j < |ops| && IsInsertion(ops[j]) ==>
          0 < j && IsRemoval(ops[j - 1]) && Target(ops[j - 1]) == Target(ops[j]))
    && (forall j :: 0 <= j < |ops| && IsRemoval(ops[j]) ==>
          j + 1 < |ops| && IsInsertion(ops[j + 1]) && Target(ops[j + 1]) == Target(ops[j]))
    && (forall j :: 0 <= j < |ops| && ops[j].UpsertChunks? ==>
          2 <= j && ops[j - 2].UpsertNote? && ops[j - 2].row.noteId == ops[j].noteId)
  }

  /** Some call before pc writes the cell. */
  ghost predicate Touched(ops: seq<Op>, pc: nat, c: Cell) {
    exists i :: 0 <= i < pc && i < |ops| && Target(ops[i]) == c
  }

  /** Some call from pc on writes the cell. */
  ghost predicate Pending(ops: seq<Op>, pc: nat, c: Cell) {
    exists i :: pc <= i < |ops| && Target(ops[i]) == c
  }

  /** What makes every call succeed: the corpus policy, and paths that are free when their row is written. */
  ghost predicate Admissible(ops: seq<Op>, rows: map<string, NoteRow>) {
    && (forall j :: 0 <= j < |ops| && ops[j].WriteFile? ==> CorpusPolicy(ops[j].note))
    && (forall i, j :: 0 <= i < j < |ops| && ops[i].UpsertNote? && ops[j].UpsertNote? ==>
          ops[i].row.path != ops[j].row.path)
    && (forall j, id :: 0 <= j < |ops| && ops[j].UpsertNote? && id in rows ==>
          id == ops[j].row.noteId || Touched(ops, j, RowCell(id)) || rows[id].path != ops[j].row.path)
  }

  // ----- The invariant of a cell under any number of workers -----

  ghost predicate AnyTouched(ops: seq<Op>, progress: seq<nat>, c: Cell) {
    exists k :: 0 <= k < |progress| && Touched(ops, progress[k], c)
  }

  /** A worker stands between the removal and the insertion of the cell. */
  ghost predicate AnyBetween(ops: seq<Op>, progress: seq<nat>, c: Cell) {
    exists k :: 0 <= k < |progress| && Touched(ops, progress[k], c) && Pending(ops, progress[k], c)
  }

  /** What the program as a whole leaves in the cell. */
  ghost function Goal(ops: seq<Op>, c: Cell): Content {
    if j :| 0 <= j < |ops| && Target(ops[j]) == c && !IsRemoval(ops[j]) then Settled(ops[j]) else Absent
  }

  /** From the content `before` any worker started to the content `now`. */
  ghost predicate CellInv(ops: seq<Op>, progress: seq<nat>, c: Cell, before: Content, now: Content) {
    if !AnyTouched(ops, progress, c) then now == before
    else now == Goal(ops, c) || (AnyBetween(ops, progress, c) && IsCleared(now))
  }

  ghost predicate Inv(ops: seq<Op>, progress: seq<nat>, base: Tables, t: Tables) {
    && KeyedTable(t.chunks)
    && forall c: Cell {:trigger View(t, c)} :: CellInv(ops, progress, c, View(base, c), View(t, c))
  }

  lemma GoalIs(ops: seq<Op>, j: nat)
    requires Coherent(ops) && j < |ops| && !IsRemoval(ops[j])
    ensures Goal(ops, Target(ops[j])) == Settled(ops[j])
  {
    var k :| 0 <= k < |ops| && Target(ops[k]) == Target(ops[j]) && !IsRemoval(ops[k])
             && Goal(ops, Target(ops[j])) == Settled(ops[k]);
    if k < j {
      assert false;
    } else if j < k {
      assert false;
    }
  }

  lemma TouchedStep(ops: seq<Op>, pc: nat, c: Cell)
    requires pc < |ops|
    ensures Touched(ops, pc + 1, c) <==> Touched(ops, pc, c) || Target(ops[pc]) == c
    ensures Pending(ops, pc, c) <==> Pending(ops, pc + 1, c) || Target(ops[pc]) == c
  {
    if Touched(ops, pc, c) {
      var i :| 0 <= i < pc && i < |ops| && Target(ops[i]) == c;
      assert 0 <= i < pc + 1;
    }
    if Pending(ops, pc + 1, c) {
      var i :| pc + 1 <= i < |ops| && Target(ops[i]) == c;
      assert pc <= i;
    }
  }

  /** A worker's step on another cell leaves the cell's invariant alone. */
  lemma CellInvElsewhere(ops: seq<Op>, progress: seq<nat>, k: nat, c: Cell, before: Content, now: Content)
    requires CellInv(ops, progress, c, before, now)
    requires k < |progress| && progress[k] < |ops| && Target(ops[progress[k]]) != c
    ensures CellInv(ops, progress[k := progress[k] + 1], c, before, now)
  {
    var next := progress[k := progress[k] + 1];
    TouchedStep(ops, progress[k], c);
    SameTouches(ops, progress, next, c);
  }

  lemma SameTouches(ops: seq<Op>, progress: seq<nat>, next: seq<nat>, c: Cell)
    requires |progress| == |next|
    requires forall i :: 0 <= i < |progress| ==>
               (Touched(ops, next[i], c) <==> Touched(ops, progress[i], c)) &&
               (Pending(ops, next[i], c) <==> Pending(ops, progress[i], c))
    ensures AnyTouched(ops, next, c) <==> AnyTouched(ops, progress, c)
    ensures AnyBetween(ops, next, c) <==> AnyBetween(ops, progress, c)
  {
  }

  /** Once its own removal is behind it, a worker about to insert finds the cell cleared or filled. */
  lemma ReadyToInsert(ops: seq<Op>, progress: seq<nat>, k: nat, before: Content, now: Content)
    requires Coherent(ops) && k < |progress| && progress[k] < |ops| && IsInsertion(ops[progress[k]])
    requires CellInv(ops, progress, Target(ops[progress[k]]), before, now)
    ensures IsCleared(now) || now == Settled(ops[progress[k]])
  {
    var j := progress[k];
    assert Target(ops[j - 1]) == Target(ops[j]);
    assert Touched(ops, progress[k], Target(ops[j]));
    assert AnyTouched(ops, progress, Target(ops[j]));
    GoalIs(ops, progress[k]);
  }

  /** A worker's step on the cell itself. */
  lemma CellInvHere(ops: seq<Op>, progress: seq<nat>, k: nat, before: Content, now: Content)
    requires Coherent(ops) && k < |progress| && progress[k] < |ops|
    requires now == Settled(ops[progress[k]])
    ensures CellInv(ops, progress[k := progress[k] + 1], Target(ops[progress[k]]), before, now)
  {
    hide InsertChunks;
    var pc := progress[k];
    var c := Target(ops[pc]);
    var next := progress[k := pc + 1];
    TouchedStep(ops, pc, c);
    assert Touched(ops, next[k], c);
    assert AnyTouched(ops, next, c);
    if IsRemoval(ops[pc]) {
      assert Target(ops[pc + 1]) == c;
      assert Pending(ops, next[k], c);
      assert AnyBetween(ops, next, c);
    } else {
      GoalIs(ops, pc);
    }
  }

  /** A row that some worker has written is there. */
  lemma RowWritten(ops: seq<Op>, progress: seq<nat>, base: Tables, t: Tables, k: nat, j: nat)
    requires Coherent(ops) && Inv(ops, progress, base, t)
    requires k < |progress| && j < |ops| && j < progress[k] && ops[j].UpsertNote?
    ensures ops[j].row.noteId in t.rows && t.rows[ops[j].row.noteId] == ops[j].row
  {
    hide Apply;
    var c := RowCell(ops[j].row.noteId);
    assert CellInv(ops, progress, c, View(base, c), View(t, c));
    assert Touched(ops, progress[k], c);
    assert AnyTouched(ops, progress, c);
    GoalIs(ops, j);
  }

  /** While the invariant holds no other note's row has a path that is still to be written. */
  lemma PathStillFree(ops: seq<Op>, progress: seq<nat>, base: Tables, t: Tables, j: nat, id: string)
    requires Coherent(ops) && Admissible(ops, base.rows) && Inv(ops, progress, base, t)
    requires j < |ops| && ops[j].UpsertNote? && id in t.rows && id != ops[j].row.noteId
    requires !Touched(ops, j, RowCell(id))
    ensures t.rows[id].path != ops[j].row.path
  {
    hide Apply, Settled, Goal;
    var c := RowCell(id);
    assert CellInv(ops, progress, c, View(base, c), View(t, c));
    if AnyTouched(ops, progress, c) {
      var k :| 0 <= k < |progress| && Touched(ops, progress[k], c);
      var i :| 0 <= i < progress[k] && i < |ops| && Target(ops[i]) == c;
      RowWritten(ops, progress, base, t, k, i);
      assert !(i < j);
    } else {
      assert id in base.rows;
    }
  }

  /** Nor has it the path that a worker is about to write. */
  lemma PathFree(ops: seq<Op>, progress: seq<nat>, base: Tables, t: Tables, k: nat, id: string)
    requires Coherent(ops) && Admissible(ops, base.rows) && Inv(ops, progress, base, t)
    requires k < |progress| && progress[k] < |ops| && ops[progress[k]].UpsertNote?
    requires id in t.rows && id != ops[progress[k]].row.noteId
    ensures t.rows[id].path != ops[progress[k]].row.path
  {
    hide Apply, Settled, Goal;
    if Touched(ops, progress[k], RowCell(id)) {
      var i :| 0 <= i < progress[k] && i < |ops| && Target(ops[i]) == RowCell(id);
      RowWritten(ops, progress, base, t, k, i);
    } else {
      PathStillFree(ops, progress, base, t, progress[k], id);
    }
  }

  /** No path is taken and no chunk lacks its note row: the step succeeds. */
  lemma StepSucceeds(ops: seq<Op>, progress: seq<nat>, base: Tables, t: Tables, k: nat)
    requires Coherent(ops) && Admissible(ops, base.rows) && Inv(ops, progress, base, t)
    requires k < |progress| && progress[k] < |ops|
    ensures Apply(ops[progress[k]], t).Some?
  {
    var pc := progress[k];
    var op := ops[pc];
    if op.UpsertNote? {
      forall id | id in t.rows && id != op.row.noteId ensures t.rows[id].path != op.row.path {
        PathFree(ops, progress, base, t, k, id);
      }
    } else if op.UpsertChunks? {
      RowWritten(ops, progress, base, t, k, pc - 2);
    }
  }

  lemma StepKeepsInv(ops: seq<Op>, progress: seq<nat>, base: Tables, t: Tables, k: nat)
    requires Coherent(ops) && Inv(ops, progress, base, t)
    requires k < |progress| && progress[k] < |ops|
    requires Apply(ops[progress[k]], t).Some?
    ensures Inv(ops, progress[k := progress[k] + 1], base, Apply(ops[progress[k]], t).value)
  {
    var op := ops[progress[k]];
    var t' := Apply(op, t).value;
    ApplyKeepsKeys(op, t);
    forall c: Cell
      ensures CellInv(ops, progress[k := progress[k] + 1], c, View(base, c), View(t', c))
    {
      assert CellInv(ops, progress, c, View(base, c), View(t, c));
      if c == Target(op) {
        if IsInsertion(op) {
          ReadyToInsert(ops, progress, k, View(base, c), View(t, c));
        }
        ApplyTarget(op, t);
        CellInvHere(ops, progress, k, View(base, c), View(t', c));
      } else {
        ApplyFrame(op, t, c);
        CellInvElsewhere(ops, progress, k, c, View(base, c), View(t, c));
      }
    }
  }

  /** Before anybody has started. */
  lemma InvInitially(ops: seq<Op>, progress: seq<nat>, base: Tables)
    requires KeyedTable(base.chunks)
    requires forall k :: 0 <= k < |progress| ==> progress[k] == 0
    ensures Inv(ops, progress, base, base)
  {
    forall c: Cell ensures CellInv(ops, progress, c, View(base, c), View(base, c)) {
      assert !AnyTouched(ops, progress, c);
    }
  }

  /** Once every worker that started is through, the cell holds the goal or, if no call writes it, its old content. */
  lemma CellWhenDone(ops: seq<Op>, progress: seq<nat>, c: Cell, before: Content, now: Content)
    requires CellInv(ops, progress, c, before, now)
    requires forall k :: 0 <= k < |progress| ==> progress[k] == 0 || progress[k] == |ops|
    requires exists k :: 0 <= k < |progress| && progress[k] == |ops|
    ensures now == if Pending(ops, 0, c) then Goal(ops, c) else before
  {
    assert !AnyBetween(ops, progress, c);
    if Pending(ops, 0, c) {
      var i :| 0 <= i < |ops| && Target(ops[i]) == c;
      var k :| 0 <= k < |progress| && progress[k] == |ops|;
      assert Touched(ops, progress[k], c);
    }
  }

  lemma RunKeepsInv(ops: seq<Op>, pc: nat, stop: nat, base: Tables, t: Tables)
    requires Coherent(ops) && Admissible(ops, base.rows) && pc <= stop <= |ops| && Inv(ops, [pc], base, t)
    ensures RunPart(ops, pc, stop, t).ok && Inv(ops, [stop], base, RunPart(ops, pc, stop, t).tables)
    decreases stop - pc
  {
    hide View, Apply, Goal;
    if pc < stop {
      StepSucceeds(ops, [pc], base, t, 0);
      StepKeepsInv(ops, [pc], base, t, 0);
      assert [pc][0 := pc + 1] == [pc + 1];
      RunKeepsInv(ops, pc + 1, stop, base, Apply(ops[pc], t).value);
    }
  }

  /** An uninterrupted run of a program that fits the tables succeeds,
      leaves the goal in every cell it writes and nothing else changed. */
  lemma RunResult(ops: seq<Op>, base: Tables)
    requires Coherent(ops) && Admissible(ops, base.rows) && KeyedTable(base.chunks)
    ensures Run(ops, base).ok && KeyedTable(Run(ops, base).tables.chunks)
    ensures forall c: Cell {:trigger View(Run(ops, base).tables, c)} ::
              View(Run(ops, base).tables, c) == if Pending(ops, 0, c) then Goal(ops, c) else View(base, c)
  {
    InvInitially(ops, [0], base);
    RunKeepsInv(ops, 0, |ops|, base, base);
    var t := Run(ops, base).tables;
    forall c: Cell
      ensures View(t, c) == if Pending(ops, 0, c) then Goal(ops, c) else View(base, c)
    {
      assert [|ops|][0] == |ops|;
      CellWhenDone(ops, [|ops|], c, View(base, c), View(t, c));
    }
  }

  /** The calls before `pc` having succeeded, the rest succeeds only if policy and paths allow it. */
  lemma OkNeedsAdmissible(ops: seq<Op>, pc: nat, base: Tables, t: Tables, j: nat)
    requires Coherent(ops) && pc <= j < |ops| && Inv(ops, [pc], base, t) && RunPart(ops, pc, |ops|, t).ok
    ensures ops[j].WriteFile? ==> CorpusPolicy(ops[j].note)
    ensures ops[j].UpsertNote? ==> forall i :: 0 <= i < j && ops[i].UpsertNote? ==> ops[i].row.path != ops[j].row.path
    ensures ops[j].UpsertNote? ==> forall id :: id in base.rows ==>
              id == ops[j].row.noteId || Touched(ops, j, RowCell(id)) || base.rows[id].path != ops[j].row.path
    decreases j - pc
  {
    hide Goal;
    if pc < j {
      StepKeepsInv(ops, [pc], base, t, 0);
      assert [pc][0 := pc + 1] == [pc + 1];
      OkNeedsAdmissible(ops, pc + 1, base, Apply(ops[pc], t).value, j);
    } else if ops[j].UpsertNote? {
      forall i | 0 <= i < j && ops[i].UpsertNote? ensures ops[i].row.path != ops[j].row.path {
        RowWritten(ops, [pc], base, t, 0, i);
        assert Target(ops[i]) != Target(ops[j]);
      }
      forall id | id in base.rows && id != ops[j].row.noteId && !Touched(ops, j, RowCell(id))
        ensures base.rows[id].path != ops[j].row.path
      {
        assert !AnyTouched(ops, [pc], RowCell(id));
        assert View(t, RowCell(id)) == View(base, RowCell(id));
      }
    }
  }

  /** An uninterrupted run succeeds exactly when the policy and the paths allow every write. */
  lemma RunSucceedsIff(ops: seq<Op>, base: Tables)
    requires Coherent(ops) && KeyedTable(base.chunks)
    ensures Run(ops, base).ok <==> Admissible(ops, base.rows)
  {
    InvInitially(ops, [0], base);
    if Run(ops, base).ok {
      forall j | 0 <= j < |ops|
        ensures ops[j].WriteFile? ==> CorpusPolicy(ops[j].note)
        ensures ops[j].UpsertNote? ==> forall i :: 0 <= i < j && ops[i].UpsertNote? ==>
                  ops[i].row.path != ops[j].row.path
        ensures ops[j].UpsertNote? ==> forall id :: id in base.rows ==>
                  id == ops[j].row.noteId || Touched(ops, j, RowCell(id)) || base.rows[id].path != ops[j].row.path
      {
        OkNeedsAdmissible(ops, 0, base, base, j);
      }
    } else if Admissible(ops, base.rows) {
      RunResult(ops, base);
    }
  }

  // ----- What interrupted runs leave behind -----

  /** Tables reached from `base` by parts of the program: only its cells differ, and it still fits. */
  ghost predicate Leftover(ops: seq<Op>, base: Tables, t: Tables) {
    && KeyedTable(t.chunks)
    && Admissible(ops, t.rows)
    && forall c: Cell {:trigger View(t, c)} :: !Pending(ops, 0, c) ==> View(t, c) == View(base, c)
  }

  lemma InvLeavesLeftover(ops: seq<Op>, progress: seq<nat>, base: Tables, t: Tables)
    requires Coherent(ops) && Admissible(ops, base.rows) && Inv(ops, progress, base, t)
    ensures Leftover(ops, base, t)
  {
    forall c: Cell | !Pending(ops, 0, c) ensures View(t, c) == View(base, c) {
      assert CellInv(ops, progress, c, View(base, c), View(t, c));
      assert !AnyTouched(ops, progress, c);
    }
    forall j, id | 0 <= j < |ops| && ops[j].UpsertNote? && id in t.rows
      ensures id == ops[j].row.noteId || Touched(ops, j, RowCell(id)) || t.rows[id].path != ops[j].row.path
    {
      if id != ops[j].row.noteId && !Touched(ops, j, RowCell(id)) {
        PathStillFree(ops, progress, base, t, j, id);
      }
    }
  }

  lemma LeftoverTransitive(ops: seq<Op>, t1: Tables, t2: Tables, t3: Tables)
    requires Leftover(ops, t1, t2) && Leftover(ops, t2, t3)
    ensures Leftover(ops, t1, t3)
  {
    forall c: Cell | !Pending(ops, 0, c) ensures View(t3, c) == View(t1, c) {
      assert View(t2, c) == View(t1, c);
    }
  }

  /** Whatever interrupted runs left behind, an uninterrupted one ends where it would have ended without them. */
  lemma RunAfterLeftover(ops: seq<Op>, base: Tables, t: Tables)
    requires Coherent(ops) && KeyedTable(base.chunks) && Admissible(ops, base.rows) && Leftover(ops, base, t)
    ensures Run(ops, t).ok && SameTables(Run(ops, t).tables, Run(ops, base).tables)
  {
    RunResult(ops, base);
    RunResult(ops, t);
    forall c: Cell ensures View(Run(ops, t).tables, c) == View(Run(ops, base).tables, c) {
      if !Pending(ops, 0, c) {
        assert View(t, c) == View(base, c);
      }
    }
  }

  // ----- The outbox entry and its workers -----

  datatype EntryState = Queued | Processing | Completed | Failed

  datatype Entry = Entry(state: EntryState, attempts: nat)

  datatype Worker =
    | Waiting
    | Active(pc: nat)
    | Finished
    | Refused
    | Stopped(pc: nat)

  datatype System = System(tables: Tables, entry: Entry, workers: seq<Worker>)

  datatype Event =
    | Claim(w: nat)
    | Step(w: nat)
    | Complete(w: nat)
    | Crash(w: nat)
    | Fault(w: nat)

  function WithWorker(s: System, w: nat, worker: Worker): System
    requires w < |s.workers|
  {
    s.(workers := s.workers[w := worker])
  }

  /** One event of the system; None when it cannot happen.
      A crash stops the worker; a fault, or a call that throws, also marks the entry as failed. */
  function Fire(ops: seq<Op>, s: System, e: Event): Option<System> {
    if e.w >= |s.workers| then None
    else
      var worker := s.workers[e.w];
      match e
      case Claim(w) =>
        if !worker.Waiting? then None
        else if s.entry.state.Completed? then Some(WithWorker(s, w, Refused))
        else Some(WithWorker(s, w, Active(0)).(entry := Entry(Processing, s.entry.attempts + 1)))
      case Step(w) =>
        if !worker.Active? || worker.pc >= |ops| then None
        else (
          match Apply(ops[worker.pc], s.tables)
          case None => Some(WithWorker(s, w, Stopped(worker.pc)).(entry := s.entry.(state := Failed)))
          case Some(t) => Some(WithWorker(s, w, Active(worker.pc + 1)).(tables := t))
        )
      case Complete(w) =>
        if !worker.Active? || worker.pc != |ops| then None
        else Some(WithWorker(s, w, Finished).(entry := s.entry.(state := Completed)))
      case Crash(w) =>
        if !worker.Active? then None else Some(WithWorker(s, w, Stopped(worker.pc)))
      case Fault(w) =>
        if !worker.Active? || worker.pc > |ops| then None
        else Some(WithWorker(s, w, Stopped(worker.pc)).(entry := s.entry.(state := Failed)))
  }

  /** A whole run; None when one of its events cannot happen. */
  function Trace(ops: seq<Op>, s: System, events: seq<Event>): Option<System>
    decreases |events|
  {
    if events == [] then Some(s)
    else
      match Fire(ops, s, events[0])
      case None => None
      case Some(s') => Trace(ops, s', events[1..])
  }

  function Progress(ops: seq<Op>, worker: Worker): nat {
    match worker
    case Waiting => 0
    case Active(pc) => pc
    case Finished => |ops|
    case Refused => 0
    case Stopped(pc) => pc
  }

  function ProgressOf(ops: seq<Op>, workers: seq<Worker>): seq<nat> {
    seq(|workers|, k requires 0 <= k < |workers| => Progress(ops, workers[k]))
  }

  ghost predicate SystemInv(ops: seq<Op>, base: Tables, s: System) {
    && Inv(ops, ProgressOf(ops, s.workers), base, s.tables)
    && forall k :: 0 <= k < |s.workers| && s.workers[k].Active? ==> s.workers[k].pc <= |ops|
  }

  lemma FireKeepsInv(ops: seq<Op>, base: Tables, s: System, e: Event)
    requires Coherent(ops) && Admissible(ops, base.rows) && SystemInv(ops, base, s)
    requires Fire(ops, s, e).Some?
    ensures SystemInv(ops, base, Fire(ops, s, e).value)
  {
    hide View, Apply, Goal;
    var s' := Fire(ops, s, e).value;
    var before, after := ProgressOf(ops, s.workers), ProgressOf(ops, s'.workers);
    if e.Step? {
      StepSucceeds(ops, before, base, s.tables, e.w);
      StepKeepsInv(ops, before, base, s.tables, e.w);
      assert after == before[e.w := before[e.w] + 1];
    } else {
      assert after == before;
    }
  }

  lemma TraceKeepsInv(ops: seq<Op>, base: Tables, s: System, events: seq<Event>)
    requires Coherent(ops) && Admissible(ops, base.rows) && SystemInv(ops, base, s)
    requires Trace(ops, s, events).Some?
    ensures SystemInv(ops, base, Trace(ops, s, events).value)
    decreases |events|
  {
    if events != [] {
      FireKeepsInv(ops, base, s, events[0]);
      TraceKeepsInv(ops, base, Fire(ops, s, events[0]).value, events[1..]);
    }
  }

  ghost predicate Fresh(s: System) {
    forall k :: 0 <= k < |s.workers| ==> s.workers[k].Waiting?
  }

  lemma FreshInv(ops: seq<Op>, s: System)
    requires Fresh(s) && KeyedTable(s.tables.chunks)
    ensures SystemInv(ops, s.tables, s)
  {
    InvInitially(ops, ProgressOf(ops, s.workers), s.tables);
  }

  // ----- Whole runs of many workers -----

  predicate Interrupts(e: Event) {
    e.Crash? || e.Fault?
  }

  ghost predicate SomeFinished(s: System) {
    exists k :: 0 <= k < |s.workers| && s.workers[k].Finished?
  }

  /** Without interruptions nobody stops, and the entry is completed exactly when somebody has finished. */
  ghost predicate Undisturbed(s: System) {
    && (forall k :: 0 <= k < |s.workers| ==> !s.workers[k].Stopped?)
    && (forall k :: 0 <= k < |s.workers| && s.workers[k].Refused? ==> SomeFinished(s))
    && (s.entry.state.Completed? <==> SomeFinished(s))
  }

  lemma FireUndisturbed(ops: seq<Op>, base: Tables, s: System, e: Event)
    requires Coherent(ops) && Admissible(ops, base.rows) && SystemInv(ops, base, s)
    requires Undisturbed(s) && !Interrupts(e) && Fire(ops, s, e).Some?
    ensures Undisturbed(Fire(ops, s, e).value)
  {
    hide View, Apply, Goal;
    var s' := Fire(ops, s, e).value;
    if e.Step? {
      StepSucceeds(ops, ProgressOf(ops, s.workers), base, s.tables, e.w);
    }
    if SomeFinished(s) {
      var k :| 0 <= k < |s.workers| && s.workers[k].Finished?;
      assert s'.workers[k].Finished?;
    }
    if e.Complete? {
      assert s'.workers[e.w].Finished?;
    }
    if SomeFinished(s') && !e.Complete? {
      var k :| 0 <= k < |s'.workers| && s'.workers[k].Finished?;
      assert s.workers[k].Finished?;
    }
  }

  lemma TraceUndisturbed(ops: seq<Op>, base: Tables, s: System, events: seq<Event>)
    requires Coherent(ops) && Admissible(ops, base.rows) && SystemInv(ops, base, s)
    requires Undisturbed(s) && Trace(ops, s, events).Some?
    requires forall i :: 0 <= i < |events| ==> !Interrupts(events[i])
    ensures Undisturbed(Trace(ops, s, events).value)
    decreases |events|
  {
    hide View, Apply, Goal;
    if events != [] {
      FireKeepsInv(ops, base, s, events[0]);
      FireUndisturbed(ops, base, s, events[0]);
      TraceUndisturbed(ops, base, Fire(ops, s, events[0]).value, events[1..]);
    }
  }

  /** No worker, running or stopped, stands between the removal and the insertion of some note's chunks. */
  ghost predicate NobodyBetween(ops: seq<Op>, s: System) {
    forall c :: !AnyBetween(ops, ProgressOf(ops, s.workers), c)
  }

  /** In any run, crashes and faults included, once one worker is through and nobody stands between
      a removal and its insertion, the tables are those of one uninterrupted run. */
  lemma {:induction false} ConvergedWhenNobodyBetween(ops: seq<Op>, s: System, events: seq<Event>)
    requires Coherent(ops) && Admissible(ops, s.tables.rows) && KeyedTable(s.tables.chunks) && Fresh(s)
    requires Trace(ops, s, events).Some?
    requires SomeFinished(Trace(ops, s, events).value) && NobodyBetween(ops, Trace(ops, s, events).value)
    ensures SameTables(Trace(ops, s, events).value.tables, Run(ops, s.tables).tables)
  {
    hide Apply, RunPart;
    FreshInv(ops, s);
    TraceKeepsInv(ops, s.tables, s, events);
    RunResult(ops, s.tables);
    var f := Trace(ops, s, events).value;
    var progress := ProgressOf(ops, f.workers);
    var k :| 0 <= k < |f.workers| && f.workers[k].Finished?;
    forall c: Cell ensures View(f.tables, c) == View(Run(ops, s.tables).tables, c) {
      assert CellInv(ops, progress, c, View(s.tables, c), View(f.tables, c));
      if Pending(ops, 0, c) {
        assert Touched(ops, progress[k], c);
      } else {
        assert !AnyTouched(ops, progress, c);
      }
    }
  }

  /** Any interleaving of the port calls of any number of workers, all running to their end,
      reaches the tables of one worker alone and completes the entry. */
  lemma {:induction false} InterleavingConvergence(ops: seq<Op>, s: System, events: seq<Event>)
    requires Coherent(ops) && Admissible(ops, s.tables.rows) && KeyedTable(s.tables.chunks)
    requires Fresh(s) && s.workers != [] && !s.entry.state.Completed?
    requires Trace(ops, s, events).Some?
    requires forall i :: 0 <= i < |events| ==> !Interrupts(events[i])
    requires forall k :: 0 <= k < |s.workers| ==>
               k < |Trace(ops, s, events).value.workers| &&
               (Trace(ops, s, events).value.workers[k].Finished? || Trace(ops, s, events).value.workers[k].Refused?)
    ensures SameTables(Trace(ops, s, events).value.tables, Run(ops, s.tables).tables)
    ensures Trace(ops, s, events).value.entry.state.Completed?
  {
    hide View, Apply, Goal, Run, RunPart;
    FreshInv(ops, s);
    TraceUndisturbed(ops, s.tables, s, events);
    TraceKeepsWorkers(ops, s, events);
    var f := Trace(ops, s, events).value;
    assert f.workers[0].Finished? || f.workers[0].Refused?;
    assert SomeFinished(f);
    forall c ensures !AnyBetween(ops, ProgressOf(ops, f.workers), c) {
    }
    ConvergedWhenNobodyBetween(ops, s, events);
  }

  lemma TraceKeepsWorkers(ops: seq<Op>, s: System, events: seq<Event>)
    requires Trace(ops, s, events).Some?
    ensures |Trace(ops, s, events).value.workers| == |s.workers|
    decreases |events|
  {
    if events != [] {
      TraceKeepsWorkers(ops, Fire(ops, s, events[0]).value, events[1..]);
    }
  }

  /** However many workers ran, overlapped, crashed or failed: one uninterrupted run afterwards
      leaves what it would have left without them. */
  lemma {:induction false} DisturbedRunsRecover(ops: seq<Op>, s: System, events: seq<Event>)
    requires Coherent(ops) && Admissible(ops, s.tables.rows) && KeyedTable(s.tables.chunks) && Fresh(s)
    requires Trace(ops, s, events).Some?
    ensures Run(ops, Trace(ops, s, events).value.tables).ok
    ensures SameTables(Run(ops, Trace(ops, s, events).value.tables).tables, Run(ops, s.tables).tables)
  {
    FreshInv(ops, s);
    TraceKeepsInv(ops, s.tables, s, events);
    var f := Trace(ops, s, events).value;
    InvLeavesLeftover(ops, ProgressOf(ops, f.workers), s.tables, f.tables);
    RunAfterLeftover(ops, s.tables, f.tables);
  }

  // ----- Why nobody may stop between a removal and its insertion -----

  function Steps(w: nat, n: nat): seq<Event> {
    if n == 0 then [] else [Step(w)] + Steps(w, n - 1)
  }

  lemma TraceAppend(ops: seq<Op>, s: System, a: seq<Event>, b: seq<Event>)
    requires Trace(ops, s, a).Some?
    ensures Trace(ops, s, a + b) == Trace(ops, Trace(ops, s, a).value, b)
    decreases |a|
  {
    hide Apply;
    if a == [] {
      assert a + b == b;
    } else {
      assert (a + b)[1..] == a[1..] + b;
      TraceAppend(ops, Fire(ops, s, a[0]).value, a[1..], b);
    }
  }

  lemma StepFires(ops: seq<Op>, base: Tables, s: System, w: nat, pc: nat)
    requires Coherent(ops) && Admissible(ops, base.rows) && SystemInv(ops, base, s)
    requires w < |s.workers| && s.workers[w] == Active(pc) && pc < |ops|
    ensures Fire(ops, s, Step(w)).Some? && Apply(ops[pc], s.tables).Some?
    ensures var f := Fire(ops, s, Step(w)).value;
            && SystemInv(ops, base, f) && f.entry == s.entry
            && f.tables == Apply(ops[pc], s.tables).value
            && f.workers == s.workers[w := Active(pc + 1)]
  {
    hide Apply, View, Goal, Trace;
    StepSucceeds(ops, ProgressOf(ops, s.workers), base, s.tables, w);
    FireKeepsInv(ops, base, s, Step(w));
  }

  /** A worker left alone can always take its next n steps. */
  lemma StepsReach(ops: seq<Op>, base: Tables, s: System, w: nat, pc: nat, n: nat)
    requires Coherent(ops) && Admissible(ops, base.rows) && SystemInv(ops, base, s)
    requires w < |s.workers| && s.workers[w] == Active(pc) && pc + n <= |ops|
    ensures Trace(ops, s, Steps(w, n)).Some?
    ensures var f := Trace(ops, s, Steps(w, n)).value;
            SystemInv(ops, base, f) && f.entry == s.entry && f.workers == s.workers[w := Active(pc + n)]
    decreases n
  {
    hide Fire, Apply, View, Goal, Coherent, Admissible, SystemInv;
    if n > 0 {
      StepFires(ops, base, s, w, pc);
      StepsReach(ops, base, Fire(ops, s, Step(w)).value, w, pc + 1, n - 1);
    } else {
      assert s.workers[w := Active(pc)] == s.workers;
    }
  }

  /** The run in which worker 0 does everything while worker 1, which claimed the entry in time,
      stops right after its removal at j - 1; worker 2 then tries to repair. */
  function StalledRun(ops: seq<Op>, j: nat): seq<Event>
    requires 0 < j
  {
    [Claim(0), Claim(1)] + Steps(0, |ops|) + [Complete(0)] + Steps(1, j - 1) + [Step(1), Crash(1), Claim(2)]
  }

  /** Two overlapping workers, one of them crashing, can leave a note without the chunks of one
      uninterrupted run, for every note that has any, and the entry completed, so that no later claim repairs it. */
  lemma {:induction false} StalledWorkerLosesChunks(ops: seq<Op>, tables: Tables, entry: Entry, j: nat)
    requires Coherent(ops) && Admissible(ops, tables.rows) && KeyedTable(tables.chunks)
    requires !entry.state.Completed?
    requires j < |ops| && IsInsertion(ops[j]) && !IsCleared(Settled(ops[j]))
    ensures 0 < j
    ensures var end := Trace(ops, System(tables, entry, [Waiting, Waiting, Waiting]), StalledRun(ops, j));
            && end.Some?
            && end.value.entry.state.Completed?
            && end.value.workers == [Finished, Stopped(j), Refused]
            && IsCleared(View(end.value.tables, Target(ops[j])))
            && View(end.value.tables, Target(ops[j])) != View(Run(ops, tables).tables, Target(ops[j]))
  {
    hide Fire, Trace, Apply, View, Goal, Run, SystemInv, Admissible;
    var s0 := System(tables, entry, [Waiting, Waiting, Waiting]);
    var opening, done, stalled := [Claim(0), Claim(1)] + Steps(0, |ops|), [Complete(0)], Steps(1, j - 1);
    var s1 := OpeningRun(ops, tables, entry);
    var s2 := CompletionRun(ops, tables, s1);
    TraceAppend(ops, s0, opening, done);
    StepsReach(ops, tables, s2, 1, 0, j - 1);
    var s3 := Trace(ops, s2, stalled).value;
    TraceAppend(ops, s0, opening + done, stalled);
    assert s3.workers == [Finished, Active(j - 1), Waiting];
    StallAt(ops, tables, s3, j);
    TraceAppend(ops, s0, opening + done + stalled, [Step(1), Crash(1), Claim(2)]);
    assert Pending(ops, 0, Target(ops[j]));
    RunResult(ops, tables);
    GoalIs(ops, j);
    assert View(Run(ops, tables).tables, Target(ops[j])) == Settled(ops[j]);
  }

  /** Two workers claim the entry and worker 0 takes all its steps. */
  lemma OpeningRun(ops: seq<Op>, tables: Tables, entry: Entry) returns (f: System)
    requires Coherent(ops) && Admissible(ops, tables.rows) && KeyedTable(tables.chunks)
    requires !entry.state.Completed?
    ensures Trace(ops, System(tables, entry, [Waiting, Waiting, Waiting]), [Claim(0), Claim(1)] + Steps(0, |ops|)) ==
              Some(f)
    ensures SystemInv(ops, tables, f) && f.workers == [Active(|ops|), Active(0), Waiting]
  {
    hide Apply, View, Goal, SystemInv, Admissible, Coherent;
    var s0 := System(tables, entry, [Waiting, Waiting, Waiting]);
    FreshInv(ops, s0);
    var s1 := Fire(ops, s0, Claim(0)).value;
    FireKeepsInv(ops, tables, s0, Claim(0));
    var s2 := Fire(ops, s1, Claim(1)).value;
    FireKeepsInv(ops, tables, s1, Claim(1));
    TwoEvents(ops, s0, Claim(0), Claim(1));
    assert s2.workers == [Active(0), Active(0), Waiting];
    StepsReach(ops, tables, s2, 0, 0, |ops|);
    TraceAppend(ops, s0, [Claim(0), Claim(1)], Steps(0, |ops|));
    f := Trace(ops, s2, Steps(0, |ops|)).value;
  }

  lemma CompletionRun(ops: seq<Op>, base: Tables, s: System) returns (f: System)
    requires Coherent(ops) && Admissible(ops, base.rows) && SystemInv(ops, base, s)
    requires s.workers == [Active(|ops|), Active(0), Waiting]
    ensures Trace(ops, s, [Complete(0)]) == Some(f)
    ensures SystemInv(ops, base, f) && f.workers == [Finished, Active(0), Waiting] && f.entry.state.Completed?
  {
    hide Apply, View, Goal, SystemInv, Admissible, Coherent;
    FireKeepsInv(ops, base, s, Complete(0));
    f := Fire(ops, s, Complete(0)).value;
    OneEvent(ops, s, Complete(0));
  }

  lemma OneEvent(ops: seq<Op>, s: System, e: Event)
    requires Fire(ops, s, e).Some?
    ensures Trace(ops, s, [e]) == Fire(ops, s, e)
  {
  }

  lemma TwoEvents(ops: seq<Op>, s: System, a: Event, b: Event)
    requires Fire(ops, s, a).Some? && Fire(ops, Fire(ops, s, a).value, b).Some?
    ensures Trace(ops, s, [a, b]) == Fire(ops, Fire(ops, s, a).value, b)
  {
    hide Apply;
    assert [a, b][1..] == [b];
    OneEvent(ops, Fire(ops, s, a).value, b);
  }

  /** The last three events of the stalled run. */
  lemma StallAt(ops: seq<Op>, base: Tables, s: System, j: nat)
    requires Coherent(ops) && Admissible(ops, base.rows) && SystemInv(ops, base, s)
    requires 0 < j < |ops| && IsRemoval(ops[j - 1])
    requires s.workers == [Finished, Active(j - 1), Waiting] && s.entry.state.Completed?
    ensures var end := Trace(ops, s, [Step(1), Crash(1), Claim(2)]);
            && end.Some? && end.value.entry == s.entry
            && end.value.workers == [Finished, Stopped(j), Refused]
            && IsCleared(View(end.value.tables, Target(ops[j - 1])))
  {
    hide View, Apply, SystemInv, Admissible, Settled, Goal;
    StepFires(ops, base, s, 1, j - 1);
    ClearsCell(ops, base, s, j - 1);
    var s1 := Fire(ops, s, Step(1)).value;
    TwoEvents(ops, s1, Crash(1), Claim(2));
    assert [Step(1), Crash(1), Claim(2)][1..] == [Crash(1), Claim(2)];
  }

  lemma ClearsCell(ops: seq<Op>, base: Tables, s: System, i: nat)
    requires Coherent(ops) && SystemInv(ops, base, s)
    requires i < |ops| && IsRemoval(ops[i]) && Apply(ops[i], s.tables).Some?
    ensures IsCleared(View(Apply(ops[i], s.tables).value, Target(ops[i])))
  {
    hide View, Apply;
    ApplyTarget(ops[i], s.tables);
  }

  // ----- One attempt after another -----

  /** How an attempt at the entry goes: through, or cut off after so many port calls. */
  datatype Cut = Through | CrashAfter(calls: nat) | FaultAfter(calls: nat)

  datatype Job = Job(tables: Tables, entry: Entry)

  /** One attempt: a completed entry is not claimed; a cut between two calls leaves the calls before it done. */
  function Attempt(ops: seq<Op>, job: Job, cut: Cut): Job {
    if job.entry.state.Completed? then job
    else
      var claimed := Entry(Processing, job.entry.attempts + 1);
      var stop := if cut.Through? || cut.calls >= |ops| then |ops| else cut.calls;
      var o := RunPart(ops, 0, stop, job.tables);
      if !o.ok then Job(o.tables, claimed.(state := Failed))
      else if cut.Through? || cut.calls > |ops| then Job(o.tables, claimed.(state := Completed))
      else Job(o.tables, if cut.FaultAfter? then claimed.(state := Failed) else claimed)
  }

  function Attempts(ops: seq<Op>, job: Job, cuts: seq<Cut>): Job
    decreases |cuts|
  {
    if cuts == [] then job else Attempts(ops, Attempt(ops, job, cuts[0]), cuts[1..])
  }

  ghost predicate JobInv(ops: seq<Op>, base: Tables, job: Job) {
    if job.entry.state.Completed? then SameTables(job.tables, Run(ops, base).tables)
    else Leftover(ops, base, job.tables)
  }

  lemma AttemptKeepsInv(ops: seq<Op>, base: Tables, job: Job, cut: Cut)
    requires Coherent(ops) && Admissible(ops, base.rows) && KeyedTable(base.chunks)
    requires JobInv(ops, base, job)
    ensures JobInv(ops, base, Attempt(ops, job, cut))
    ensures cut.Through? ==> Attempt(ops, job, cut).entry.state.Completed?
  {
    hide View, Apply, Goal;
    if !job.entry.state.Completed? {
      var stop := if cut.Through? || cut.calls >= |ops| then |ops| else cut.calls;
      InvInitially(ops, [0], job.tables);
      RunKeepsInv(ops, 0, stop, job.tables, job.tables);
      var o := RunPart(ops, 0, stop, job.tables);
      InvLeavesLeftover(ops, [stop], job.tables, o.tables);
      LeftoverTransitive(ops, base, job.tables, o.tables);
      RunAfterLeftover(ops, base, job.tables);
    }
  }

  lemma AttemptsKeepInv(ops: seq<Op>, base: Tables, job: Job, cuts: seq<Cut>)
    requires Coherent(ops) && Admissible(ops, base.rows) && KeyedTable(base.chunks)
    requires JobInv(ops, base, job)
    ensures JobInv(ops, base, Attempts(ops, job, cuts))
    decreases |cuts|
  {
    hide Attempt;
    if cuts != [] {
      AttemptKeepsInv(ops, base, job, cuts[0]);
      AttemptsKeepInv(ops, base, Attempt(ops, job, cuts[0]), cuts[1..]);
    }
  }

  /** Any number of attempts, each cut off after any port call by a crash or a fault, and then one that goes
      through: the entry is completed and the tables are those of a single uninterrupted attempt. */
  lemma {:induction false} CrashConvergence(ops: seq<Op>, job: Job, cuts: seq<Cut>)
    requires Coherent(ops) && Admissible(ops, job.tables.rows) && KeyedTable(job.tables.chunks)
    requires !job.entry.state.Completed?
    ensures var end := Attempt(ops, Attempts(ops, job, cuts), Through);
            && end.entry.state.Completed?
            && SameTables(end.tables, Attempt(ops, job, Through).tables)
  {
    hide View, Apply, Goal;
    InvInitially(ops, [0], job.tables);
    InvLeavesLeftover(ops, [0], job.tables, job.tables);
    AttemptsKeepInv(ops, job.tables, job, cuts);
    AttemptKeepsInv(ops, job.tables, Attempts(ops, job, cuts), Through);
    RunResult(ops, job.tables);
  }
}
