/**
 * The native worker, its import-only spare and the suspend quiesce of
 * T2Backend, as a concurrent step system.
 *
 * Every coroutine is a task whose program counter names the `await` it is
 * suspended at; one action runs one task from that await to the next.  Any
 * task may also fail or be cancelled wherever it is suspended.  An `await`
 * that happens not to suspend is still a preemption point here, so the runs
 * of the model include every run of the event loop.
 */
module WorkerSleep {
  import opened Wrappers

  type TaskId = nat
  type Process = nat

  datatype Pc =
    // _ensure_native_worker; all but EnsureWaiting hold the start lock
    | EnsureWaiting
    | EnsureDiscarding
    | EnsureAwaitingSpare(starter: TaskId)
    | EnsureDiscardingSpare
    | EnsureCreating
    | EnsureHandshake(process: Process)
    | EnsureCleanup(process: Process)
    | EnsureAborting
      // _start_native_worker(spare=True), which takes no lock
    | SpareCreating
    | SpareHandshake(process: Process)
    | SpareCleanup(process: Process)
    | SpareAborting
      // the quiesce coroutine created by system_sleep_changed(True)
    | QuiesceQueued(gen: nat, previous: TaskId)
    | QuiesceStart(gen: nat)
    | QuiesceGather(gen: nat, waiting: set<TaskId>)
    | QuiesceLock(gen: nat)
    | QuiesceWorker(gen: nat)
    | QuiesceSpare(gen: nat)
    | QuiesceBarrier(gen: nat)
  {
    predicate EnsureHolding() {
      EnsureDiscarding? || EnsureAwaitingSpare? || EnsureDiscardingSpare? || EnsureCreating?
      || EnsureHandshake? || EnsureCleanup? || EnsureAborting?
    }

    predicate Preparing() {
      EnsureDiscarding? || EnsureAwaitingSpare? || EnsureDiscardingSpare? || EnsureCreating?
    }

    predicate HoldsLock() {
      EnsureHolding() || QuiesceWorker? || QuiesceSpare?
    }

    predicate StartsSpare() {
      SpareCreating? || SpareHandshake? || SpareCleanup? || SpareAborting?
    }

    predicate Quiesces() {
      QuiesceQueued? || QuiesceStart? || QuiesceGather? || QuiesceLock?
      || QuiesceWorker? || QuiesceSpare? || QuiesceBarrier?
    }
  }

  /**
   * The supervisor's fields and the live coroutines.  `retired` records every
   * process that was taken out of a slot by a discard.
   */
  datatype State = State(
    sleeping: bool,
    generation: nat,
    worker: Option<Process>,
    spare: Option<Process>,
    spareTask: Option<TaskId>,
    sleepTask: Option<TaskId>,
    lock: Option<TaskId>,
    tasks: map<TaskId, Pc>,
    nextTask: TaskId,
    nextProcess: Process,
    retired: set<Process>)
  {
    predicate StillAsleep(gen: nat) {
      sleeping && generation == gen
    }

    predicate Running(t: Option<TaskId>) {
      t.Some? && t.value in tasks
    }
  }

  const INIT := State(true, 0, None, None, None, None, None, map[], 0, 0, {})

  // ---------------------------------------------------------------- steps

  function Goto(s: State, t: TaskId, pc: Pc): State {
    s.(tasks := s.tasks[t := pc])
  }

  function Finish(s: State, t: TaskId): State {
    s.(tasks := s.tasks - {t})
  }

  function FinishUnlocked(s: State, t: TaskId): State {
    Finish(s.(lock := None), t)
  }

  /** The synchronous part of _discard_native_worker. */
  function Discard(s: State, p: Process): State {
    if s.worker == Some(p) then s.(worker := None, retired := s.retired + {p})
    else if s.spare == Some(p) then s.(spare := None, retired := s.retired + {p})
    else s
  }

  function EnsureEntered(s: State, t: TaskId, healthy: bool): State {
    if s.sleeping then FinishUnlocked(s, t)
    else if s.worker.Some? then
      if healthy then FinishUnlocked(s, t)
      else Goto(Discard(s, s.worker.value), t, EnsureDiscarding)
    else EnsureWaitForSpare(s, t, healthy)
  }

  function EnsureWaitForSpare(s: State, t: TaskId, healthy: bool): State {
    if s.spareTask.Some? then Goto(s, t, EnsureAwaitingSpare(s.spareTask.value))
    else EnsureChoose(s, t, healthy)
  }

  function EnsureChoose(s: State, t: TaskId, healthy: bool): State {
    if s.sleeping then FinishUnlocked(s, t)
    else if s.spare.Some? then
      if healthy then FinishUnlocked(s.(worker := s.spare, spare := None), t)
      else Goto(Discard(s, s.spare.value), t, EnsureDiscardingSpare)
    else Goto(s, t, EnsureCreating)
  }

  /** _start_native_worker once the subprocess exists; without a stdout it is discarded at once. */
  function WorkerCreated(s: State, t: TaskId, healthy: bool): State {
    var p := s.nextProcess;
    var started := s.(worker := Some(p), nextProcess := p + 1);
    if healthy then Goto(started, t, EnsureHandshake(p))
    else Goto(Discard(started, p), t, EnsureAborting)
  }

  function SpareCreated(s: State, t: TaskId, healthy: bool): State {
    var p := s.nextProcess;
    var started := s.(spare := Some(p), nextProcess := p + 1);
    if healthy then Goto(started, t, SpareHandshake(p))
    else Goto(Discard(started, p), t, SpareAborting)
  }

  function EnsureResumed(s: State, t: TaskId, healthy: bool, ok: bool): State
    requires t in s.tasks && (s.tasks[t].EnsureWaiting? || s.tasks[t].EnsureHolding())
  {
    match s.tasks[t]
    case EnsureWaiting => if ok then EnsureEntered(s.(lock := Some(t)), t, healthy) else Finish(s, t)
    case EnsureDiscarding => if ok then EnsureWaitForSpare(s, t, healthy) else FinishUnlocked(s, t)
    case EnsureAwaitingSpare(_) => if ok then EnsureChoose(s, t, healthy) else FinishUnlocked(s, t)
    case EnsureDiscardingSpare => if ok then Goto(s, t, EnsureCreating) else FinishUnlocked(s, t)
    case EnsureCreating =>
      if ok then WorkerCreated(s, t, healthy) else FinishUnlocked(s, t)
    case EnsureHandshake(p) => if ok then FinishUnlocked(s, t) else Goto(s, t, EnsureCleanup(p))
    case EnsureCleanup(p) => Goto(Discard(s, p), t, EnsureAborting)
    case EnsureAborting => FinishUnlocked(s, t)
  }

  function SpareResumed(s: State, t: TaskId, healthy: bool, ok: bool): State
    requires t in s.tasks && s.tasks[t].StartsSpare()
  {
    match s.tasks[t]
    case SpareCreating =>
      if ok then SpareCreated(s, t, healthy) else Finish(s, t)
    case SpareHandshake(p) => if ok then Finish(s, t) else Goto(s, t, SpareCleanup(p))
    case SpareCleanup(p) => Goto(Discard(s, p), t, SpareAborting)
    case SpareAborting => Finish(s, t)
  }

  /** Snapshot, cancel and gather: the spare starter plus any other owned tasks. */
  function QuiesceBegin(s: State, t: TaskId, gen: nat, others: set<TaskId>): State {
    if !s.StillAsleep(gen) then Finish(s, t)
    else
      var starter := if s.Running(s.spareTask) then {s.spareTask.value} else {};
      Goto(s, t, QuiesceGather(gen, others + starter))
  }

  function QuiesceTakeSpare(s: State, t: TaskId, gen: nat): State {
    if s.spare.Some? then Goto(Discard(s, s.spare.value), t, QuiesceSpare(gen))
    else QuiesceLeave(s, t, gen)
  }

  function QuiesceLeave(s: State, t: TaskId, gen: nat): State {
    if s.StillAsleep(gen) then Goto(s.(lock := None), t, QuiesceBarrier(gen))
    else FinishUnlocked(s, t)
  }

  function QuiesceResumed(s: State, t: TaskId, ok: bool, others: set<TaskId>): State
    requires t in s.tasks && s.tasks[t].Quiesces()
  {
    if !ok then
      if s.tasks[t].HoldsLock() then FinishUnlocked(s, t) else Finish(s, t)
    else
      match s.tasks[t]
      case QuiesceQueued(gen, _) => QuiesceBegin(s, t, gen, others)
      case QuiesceStart(gen) => QuiesceBegin(s, t, gen, others)
      case QuiesceGather(gen, _) => if s.StillAsleep(gen) then Goto(s, t, QuiesceLock(gen)) else Finish(s, t)
      case QuiesceLock(gen) =>
        if !s.StillAsleep(gen) then Finish(s, t)
        else
          var locked := s.(lock := Some(t));
          if s.worker.Some? then Goto(Discard(locked, s.worker.value), t, QuiesceWorker(gen))
          else QuiesceTakeSpare(locked, t, gen)
      case QuiesceWorker(gen) => QuiesceTakeSpare(s, t, gen)
      case QuiesceSpare(gen) => QuiesceLeave(s, t, gen)
      case QuiesceBarrier(gen) => Finish(s, t)
  }

  /** The synchronous system_sleep_changed. */
  function SleepChanged(s: State, asleep: bool): State {
    var t := s.nextTask;
    var gen := s.generation + 1;
    var changed := s.(sleeping := asleep, generation := gen);
    if !asleep then changed
    else
      var pc := if s.Running(s.sleepTask) then QuiesceQueued(gen, s.sleepTask.value) else QuiesceStart(gen);
      Goto(changed.(sleepTask := Some(t), nextTask := t + 1), t, pc)
  }

  /** The synchronous _schedule_native_spare. */
  function SpareScheduled(s: State): State {
    if s.sleeping || s.Running(s.spareTask) || s.spare.Some? then s
    else Goto(s.(spareTask := Some(s.nextTask), nextTask := s.nextTask + 1), s.nextTask, SpareCreating)
  }

  datatype Action =
    | SystemSleep(asleep: bool)
    | CallEnsure
    | ScheduleSpare
    | SpareSettled
    | SleepSettled
    | DiscardElsewhere(process: Process)
    | Resume(task: TaskId, healthy: bool, ok: bool, others: set<TaskId>)

  predicate Enabled(s: State, a: Action) {
    match a
    case SpareSettled => s.spareTask.Some? && !s.Running(s.spareTask)
    case SleepSettled => s.sleepTask.Some? && !s.Running(s.sleepTask)
    case Resume(t, _, ok, others) =>
      && t in s.tasks
      && others <= s.tasks.Keys
      && (ok ==>
            match s.tasks[t]
            case EnsureWaiting => s.lock.None?
            case EnsureAwaitingSpare(starter) => starter !in s.tasks
            case QuiesceQueued(_, previous) => previous !in s.tasks
            case QuiesceGather(_, waiting) => waiting !! s.tasks.Keys
            case QuiesceLock(_) => s.lock.None?
            case _ => true)
    case _ => true
  }

  function Apply(s: State, a: Action): State
    requires Enabled(s, a)
  {
    match a
    case SystemSleep(asleep) => SleepChanged(s, asleep)
    case CallEnsure => Goto(s.(nextTask := s.nextTask + 1), s.nextTask, EnsureWaiting)
    case ScheduleSpare => SpareScheduled(s)
    case SpareSettled => s.(spareTask := None)
    case SleepSettled => s.(sleepTask := None)
    case DiscardElsewhere(p) => Discard(s, p)
    case Resume(t, healthy, ok, others) =>
      if s.tasks[t].StartsSpare() then SpareResumed(s, t, healthy, ok)
      else if s.tasks[t].Quiesces() then QuiesceResumed(s, t, ok, others)
      else EnsureResumed(s, t, healthy, ok)
  }

  ghost predicate IsRun(run: seq<State>) {
    && |run| > 0
    && run[0] == INIT
    && forall i :: 0 <= i < |run| - 1 ==> StepAt(run, i)
  }

  ghost predicate StepAt(run: seq<State>, i: int)
    requires 0 <= i < |run| - 1
  {
    Next(run[i], run[i + 1])
  }

  ghost predicate Next(s: State, s': State) {
    exists a :: Enabled(s, a) && s' == Apply(s, a)
  }

  // ------------------------------------------------------------ invariant

  predicate NoSpareStarter(s: State) {
    forall t :: t in s.tasks ==> !s.tasks[t].StartsSpare()
  }

  /** Nothing is running and nobody holds a licence to start something. */
  predicate Quiet(s: State) {
    && s.worker.None?
    && s.spare.None?
    && NoSpareStarter(s)
    && forall t :: t in s.tasks ==> !s.tasks[t].EnsureHolding()
  }

  predicate TaskOk(s: State, t: TaskId)
    requires t in s.tasks
  {
    var pc := s.tasks[t];
    && t < s.nextTask
    && (pc.HoldsLock() ==> s.lock == Some(t))
    && (pc.StartsSpare() ==> s.spareTask == Some(t))
    && (pc.Preparing() ==> s.worker.None?)
    && (pc.SpareCreating? ==> s.spare.None?)
    && (pc.Quiesces() && s.StillAsleep(pc.gen) ==> QuiesceOk(s, pc))
  }

  /** How far a quiesce whose sleep is still current has emptied the supervisor. */
  predicate QuiesceOk(s: State, pc: Pc) {
    && (pc.QuiesceGather? ==> forall u :: u in s.tasks && s.tasks[u].StartsSpare() ==> u in pc.waiting)
    && (pc.QuiesceLock? || pc.QuiesceWorker? || pc.QuiesceSpare? ==> NoSpareStarter(s))
    && (pc.QuiesceWorker? || pc.QuiesceSpare? ==> s.worker.None?)
    && (pc.QuiesceSpare? ==> s.spare.None?)
    && (pc.QuiesceBarrier? ==> Quiet(s))
  }

  /** Every process ever created is in exactly one of the slots or retired. */
  ghost predicate Conserved(s: State) {
    && (s.worker.Some? ==> s.worker.value !in s.retired && s.spare != s.worker)
    && (s.spare.Some? ==> s.spare.value !in s.retired)
    && (forall p: Process ::
          p < s.nextProcess <==> s.worker == Some(p) || s.spare == Some(p) || p in s.retired)
  }

  ghost predicate TasksOk(s: State) {
    && (forall t :: t in s.tasks ==> TaskOk(s, t))
    && (s.lock.Some? ==> s.lock.value in s.tasks && s.tasks[s.lock.value].HoldsLock())
    && (s.spareTask.Some? ==> s.spareTask.value < s.nextTask)
    && (forall t :: t in s.tasks && s.tasks[t].Quiesces() ==> s.tasks[t].gen <= s.generation)
  }

  ghost predicate Inv(s: State) {
    TasksOk(s) && Conserved(s)
  }

  predicate MayStart(s: State, t: TaskId)
    requires t in s.tasks
  {
    s.tasks[t].EnsureHolding() || (s.tasks[t].EnsureWaiting? && s.lock.None? && !s.sleeping)
  }

  /** Who may touch what: the fields one step of task t can change. */
  predicate Touches(s: State, m: State, t: TaskId) {
    && t in s.tasks && m.tasks == s.tasks
    && m.sleeping == s.sleeping && m.generation == s.generation
    && m.spareTask == s.spareTask && m.nextTask == s.nextTask
    && (m.lock == s.lock || s.lock.None? || s.lock == Some(t))
    && (m.lock == s.lock || m.lock.None? || m.lock == Some(t))
    && (m.worker == s.worker || m.worker.None? || MayStart(s, t))
    && (m.spare == s.spare || m.spare.None? || s.tasks[t].StartsSpare())
  }

  lemma OthersKeepOkOnGoto(s: State, m: State, t: TaskId, pc: Pc, u: TaskId)
    requires TasksOk(s) && Touches(s, m, t)
    requires pc.StartsSpare() ==> s.tasks[t].StartsSpare()
    requires pc.EnsureHolding() ==> MayStart(s, t)
    requires u != t && u in s.tasks
    ensures TaskOk(Goto(m, t, pc), u)
  {
  }

  lemma OthersKeepOkOnFinish(s: State, m: State, t: TaskId, u: TaskId)
    requires TasksOk(s) && Touches(s, m, t)
    requires u != t && u in s.tasks
    ensures TaskOk(Finish(m, t), u)
  {
  }

  lemma GotoKeepsTasksOk(s: State, m: State, t: TaskId, pc: Pc)
    requires TasksOk(s) && Touches(s, m, t)
    requires pc.StartsSpare() ==> s.tasks[t].StartsSpare()
    requires pc.EnsureHolding() ==> MayStart(s, t)
    requires TaskOk(Goto(m, t, pc), t) && (pc.Quiesces() ==> pc.gen <= s.generation)
    requires m.lock == Some(t) ==> pc.HoldsLock()
    ensures TasksOk(Goto(m, t, pc))
  {
    var s' := Goto(m, t, pc);
    forall u | u in s'.tasks
      ensures TaskOk(s', u)
    {
      if u != t { OthersKeepOkOnGoto(s, m, t, pc, u); }
    }
  }

  lemma StartKeepsTasksOk(s: State, m: State, t: TaskId, pc: Pc)
    requires TasksOk(s) && Touches(s, m, t)
    requires !pc.Quiesces() && !pc.SpareCreating?
    requires pc.StartsSpare() ==> s.tasks[t].StartsSpare()
    requires pc.EnsureHolding() ==> MayStart(s, t) && m.lock == Some(t)
    requires pc.Preparing() ==> m.worker.None?
    requires m.lock == Some(t) ==> pc.HoldsLock()
    ensures TasksOk(Goto(m, t, pc))
  {
    GotoKeepsTasksOk(s, m, t, pc);
  }

  lemma FinishKeepsTasksOk(s: State, m: State, t: TaskId)
    requires TasksOk(s) && Touches(s, m, t)
    requires m.lock != Some(t)
    ensures TasksOk(Finish(m, t))
  {
    var s' := Finish(m, t);
    forall u | u in s'.tasks
      ensures TaskOk(s', u)
    {
      OthersKeepOkOnFinish(s, m, t, u);
    }
  }

  lemma SleepChangedKeepsInv(s: State, asleep: bool)
    requires Inv(s)
    ensures Inv(SleepChanged(s, asleep))
  {
  }

  lemma SpareScheduledKeepsInv(s: State)
    requires Inv(s)
    ensures Inv(SpareScheduled(s))
  {
  }

  lemma DiscardConserves(s: State, p: Process)
    requires Conserved(s)
    ensures Conserved(Discard(s, p))
  {
  }

  lemma DiscardKeepsInv(s: State, p: Process)
    requires Inv(s)
    ensures Inv(Discard(s, p))
  {
    DiscardConserves(s, p);
  }

  lemma EnsureChooseKeepsTasksOk(s: State, m: State, t: TaskId, healthy: bool)
    requires TasksOk(s) && Touches(s, m, t) && MayStart(s, t)
    requires m.lock == Some(t) && m.worker.None?
    ensures TasksOk(EnsureChoose(m, t, healthy))
    ensures TasksOk(EnsureWaitForSpare(m, t, healthy))
  {
    if m.sleeping {
      FinishKeepsTasksOk(s, m.(lock := None), t);
    } else if m.spare.Some? {
      if healthy {
        FinishKeepsTasksOk(s, m.(worker := m.spare, spare := None, lock := None), t);
      } else {
        StartKeepsTasksOk(s, Discard(m, m.spare.value), t, EnsureDiscardingSpare);
      }
    } else {
      StartKeepsTasksOk(s, m, t, EnsureCreating);
    }
    if m.spareTask.Some? {
      StartKeepsTasksOk(s, m, t, EnsureAwaitingSpare(m.spareTask.value));
    }
  }

  lemma EnsureEnteredKeepsTasksOk(s: State, t: TaskId, healthy: bool)
    requires TasksOk(s) && t in s.tasks && s.tasks[t].EnsureWaiting? && s.lock.None?
    ensures TasksOk(EnsureEntered(s.(lock := Some(t)), t, healthy))
  {
    var m := s.(lock := Some(t));
    if s.sleeping || (s.worker.Some? && healthy) {
      FinishKeepsTasksOk(s, s, t);
    } else if s.worker.Some? {
      StartKeepsTasksOk(s, Discard(m, m.worker.value), t, EnsureDiscarding);
    } else {
      EnsureChooseKeepsTasksOk(s, m, t, healthy);
    }
  }

  lemma WorkerCreatedKeepsTasksOk(s: State, t: TaskId, healthy: bool)
    requires TasksOk(s) && t in s.tasks && s.tasks[t].EnsureCreating?
    ensures TasksOk(WorkerCreated(s, t, healthy))
  {
    var p := s.nextProcess;
    var started := s.(worker := Some(p), nextProcess := p + 1);
    var m := if healthy then started else Discard(started, p);
    var pc := if healthy then EnsureHandshake(p) else EnsureAborting;
    assert WorkerCreated(s, t, healthy) == Goto(m, t, pc);
    assert Touches(s, m, t);
    StartKeepsTasksOk(s, m, t, pc);
  }

  lemma SpareCreatedKeepsTasksOk(s: State, t: TaskId, healthy: bool)
    requires TasksOk(s) && t in s.tasks && s.tasks[t].SpareCreating?
    requires s.worker != Some(s.nextProcess)
    ensures TasksOk(SpareCreated(s, t, healthy))
  {
    var p := s.nextProcess;
    var started := s.(spare := Some(p), nextProcess := p + 1);
    var m := if healthy then started else Discard(started, p);
    var pc := if healthy then SpareHandshake(p) else SpareAborting;
    assert SpareCreated(s, t, healthy) == Goto(m, t, pc);
    assert Touches(s, m, t);
    StartKeepsTasksOk(s, m, t, pc);
  }

  /** A failed or cancelled ensure ends and unlocks, or first cleans up the process it started. */
  lemma EnsureFailedKeepsTasksOk(s: State, a: Action)
    requires TasksOk(s) && a.Resume? && Enabled(s, a) && !a.ok
    requires s.tasks[a.task].EnsureWaiting? || s.tasks[a.task].EnsureHolding()
    ensures TasksOk(EnsureResumed(s, a.task, a.healthy, false))
  {
    var t := a.task;
    var pc := s.tasks[t];
    if pc.EnsureWaiting? {
      FinishKeepsTasksOk(s, s, t);
    } else if pc.EnsureHandshake? {
      StartKeepsTasksOk(s, s, t, EnsureCleanup(pc.process));
    } else if pc.EnsureCleanup? {
      assert Touches(s, Discard(s, pc.process), t);
      StartKeepsTasksOk(s, Discard(s, pc.process), t, EnsureAborting);
    } else {
      assert EnsureResumed(s, t, a.healthy, false) == FinishUnlocked(s, t);
      FinishKeepsTasksOk(s, s.(lock := None), t);
    }
  }

  lemma EnsureResumedKeepsTasksOk(s: State, a: Action)
    requires TasksOk(s) && a.Resume? && Enabled(s, a)
    requires s.tasks[a.task].EnsureWaiting? || s.tasks[a.task].EnsureHolding()
    ensures TasksOk(EnsureResumed(s, a.task, a.healthy, a.ok))
  {
    var t := a.task;
    if !a.ok {
      EnsureFailedKeepsTasksOk(s, a);
    } else {
      match s.tasks[t]
      case EnsureWaiting => EnsureEnteredKeepsTasksOk(s, t, a.healthy);
      case EnsureDiscarding => EnsureChooseKeepsTasksOk(s, s, t, a.healthy);
      case EnsureAwaitingSpare(_) => EnsureChooseKeepsTasksOk(s, s, t, a.healthy);
      case EnsureDiscardingSpare => StartKeepsTasksOk(s, s, t, EnsureCreating);
      case EnsureCreating => WorkerCreatedKeepsTasksOk(s, t, a.healthy);
      case EnsureHandshake(_) => FinishKeepsTasksOk(s, s.(lock := None), t);
      case EnsureCleanup(p) =>
        assert Touches(s, Discard(s, p), t);
        StartKeepsTasksOk(s, Discard(s, p), t, EnsureAborting);
      case EnsureAborting => FinishKeepsTasksOk(s, s.(lock := None), t);
    }
  }

  lemma SpareResumedKeepsTasksOk(s: State, a: Action)
    requires TasksOk(s) && Conserved(s) && a.Resume? && Enabled(s, a)
    requires s.tasks[a.task].StartsSpare()
    ensures TasksOk(SpareResumed(s, a.task, a.healthy, a.ok))
  {
    var t := a.task;
    match s.tasks[t]
    case SpareCreating =>
      if a.ok { SpareCreatedKeepsTasksOk(s, t, a.healthy); } else { FinishKeepsTasksOk(s, s, t); }
    case SpareHandshake(p) =>
      if a.ok { FinishKeepsTasksOk(s, s, t); } else { StartKeepsTasksOk(s, s, t, SpareCleanup(p)); }
    case SpareCleanup(p) =>
      assert Touches(s, Discard(s, p), t);
      StartKeepsTasksOk(s, Discard(s, p), t, SpareAborting);
    case SpareAborting => FinishKeepsTasksOk(s, s, t);
  }

  /** Leaving the start lock: both slots are empty if this sleep is still current. */
  lemma QuiesceLeaveKeepsTasksOk(s: State, m: State, t: TaskId, gen: nat)
    requires TasksOk(s) && Touches(s, m, t) && gen <= s.generation
    requires m.lock == Some(t) && s.tasks[t].Quiesces()
    requires m.StillAsleep(gen) ==> NoSpareStarter(m) && m.worker.None? && m.spare.None?
    ensures TasksOk(QuiesceLeave(m, t, gen))
  {
    var free := m.(lock := None);
    if !m.StillAsleep(gen) {
      FinishKeepsTasksOk(s, free, t);
    } else {
      forall u | u in s.tasks
        ensures !s.tasks[u].EnsureHolding()
      {
        assert TaskOk(s, u);
      }
      assert Quiet(Goto(free, t, QuiesceBarrier(gen)));
      GotoKeepsTasksOk(s, free, t, QuiesceBarrier(gen));
    }
  }

  lemma QuiesceTakeSpareKeepsTasksOk(s: State, m: State, t: TaskId, gen: nat)
    requires TasksOk(s) && Touches(s, m, t) && gen <= s.generation
    requires m.lock == Some(t) && s.tasks[t].Quiesces()
    requires m.StillAsleep(gen) ==> NoSpareStarter(m) && m.worker.None?
    ensures TasksOk(QuiesceTakeSpare(m, t, gen))
  {
    if m.spare.Some? {
      var taken := Discard(m, m.spare.value);
      assert QuiesceTakeSpare(m, t, gen) == Goto(taken, t, QuiesceSpare(gen));
      assert Touches(s, taken, t);
      assert m.StillAsleep(gen) ==> NoSpareStarter(Goto(taken, t, QuiesceSpare(gen)));
      GotoKeepsTasksOk(s, taken, t, QuiesceSpare(gen));
    } else {
      QuiesceLeaveKeepsTasksOk(s, m, t, gen);
    }
  }

  lemma QuiesceBeginKeepsTasksOk(s: State, t: TaskId, gen: nat, others: set<TaskId>)
    requires TasksOk(s) && t in s.tasks && gen <= s.generation
    requires s.tasks[t].QuiesceQueued? || s.tasks[t].QuiesceStart?
    ensures TasksOk(QuiesceBegin(s, t, gen, others))
  {
    if !s.StillAsleep(gen) {
      FinishKeepsTasksOk(s, s, t);
    } else {
      var waiting := others + if s.Running(s.spareTask) then {s.spareTask.value} else {};
      GotoKeepsTasksOk(s, s, t, QuiesceGather(gen, waiting));
    }
  }

  lemma QuiesceLockedKeepsTasksOk(s: State, t: TaskId, gen: nat)
    requires TasksOk(s) && t in s.tasks && s.tasks[t] == QuiesceLock(gen) && s.lock.None?
    ensures TasksOk(QuiesceResumed(s, t, true, {}))
  {
    var locked := s.(lock := Some(t));
    if !s.StillAsleep(gen) {
      FinishKeepsTasksOk(s, s, t);
    } else if s.worker.Some? {
      GotoKeepsTasksOk(s, locked.(worker := None, retired := s.retired + {s.worker.value}), t, QuiesceWorker(gen));
    } else {
      QuiesceTakeSpareKeepsTasksOk(s, locked, t, gen);
    }
  }

  lemma QuiesceResumedKeepsTasksOk(s: State, a: Action)
    requires TasksOk(s) && a.Resume? && Enabled(s, a)
    requires s.tasks[a.task].Quiesces()
    ensures TasksOk(QuiesceResumed(s, a.task, a.ok, a.others))
  {
    var t := a.task;
    if !a.ok {
      FinishKeepsTasksOk(s, if s.tasks[t].HoldsLock() then s.(lock := None) else s, t);
    } else {
      match s.tasks[t]
      case QuiesceQueued(gen, _) => QuiesceBeginKeepsTasksOk(s, t, gen, a.others);
      case QuiesceStart(gen) => QuiesceBeginKeepsTasksOk(s, t, gen, a.others);
      case QuiesceGather(gen, waiting) =>
        if s.StillAsleep(gen) {
          GotoKeepsTasksOk(s, s, t, QuiesceLock(gen));
        } else {
          FinishKeepsTasksOk(s, s, t);
        }
      case QuiesceLock(gen) => QuiesceLockedKeepsTasksOk(s, t, gen);
      case QuiesceWorker(gen) => QuiesceTakeSpareKeepsTasksOk(s, s, t, gen);
      case QuiesceSpare(gen) => QuiesceLeaveKeepsTasksOk(s, s, t, gen);
      case QuiesceBarrier(gen) => FinishKeepsTasksOk(s, s, t);
    }
  }

  lemma SameHoldingsConserve(s: State, s': State)
    requires Conserved(s)
    requires (s'.worker, s'.spare, s'.retired, s'.nextProcess) == (s.worker, s.spare, s.retired, s.nextProcess)
    ensures Conserved(s')
  {
  }

  lemma EnsureResumedConserves(s: State, a: Action)
    requires Inv(s) && a.Resume? && Enabled(s, a)
    requires s.tasks[a.task].EnsureWaiting? || s.tasks[a.task].EnsureHolding()
    ensures Conserved(EnsureResumed(s, a.task, a.healthy, a.ok))
  {
    var t := a.task;
    match s.tasks[t]
    case EnsureWaiting => EnsureEnteredConserves(s.(lock := Some(t)), t, a.healthy);
    case EnsureDiscarding => EnsureChooseConserves(s, t, a.healthy);
    case EnsureAwaitingSpare(_) => EnsureChooseConserves(s, t, a.healthy);
    case EnsureCleanup(p) => DiscardConserves(s, p);
    case _ =>
  }

  lemma EnsureChooseConserves(s: State, t: TaskId, healthy: bool)
    requires Conserved(s) && s.worker.None?
    ensures Conserved(EnsureChoose(s, t, healthy))
  {
  }

  lemma EnsureEnteredConserves(s: State, t: TaskId, healthy: bool)
    requires Conserved(s)
    ensures Conserved(EnsureEntered(s, t, healthy))
  {
    if s.worker.None? {
      EnsureChooseConserves(s, t, healthy);
    } else {
      DiscardConserves(s, s.worker.value);
    }
  }

  lemma SpareResumedConserves(s: State, a: Action)
    requires Inv(s) && a.Resume? && Enabled(s, a)
    requires s.tasks[a.task].StartsSpare()
    ensures Conserved(SpareResumed(s, a.task, a.healthy, a.ok))
  {
  }

  lemma QuiesceResumedConserves(s: State, a: Action)
    requires Inv(s) && a.Resume? && Enabled(s, a)
    requires s.tasks[a.task].Quiesces()
    ensures Conserved(QuiesceResumed(s, a.task, a.ok, a.others))
  {
    var s' := QuiesceResumed(s, a.task, a.ok, a.others);
    if s.worker.Some? && s'.worker != s.worker {
      DiscardConserves(s, s.worker.value);
      SameHoldingsConserve(Discard(s, s.worker.value), s');
    } else if s.spare.Some? && s'.spare != s.spare {
      DiscardConserves(s, s.spare.value);
      SameHoldingsConserve(Discard(s, s.spare.value), s');
    } else {
      SameHoldingsConserve(s, s');
    }
  }

  lemma SpareResumedKeepsInv(s: State, a: Action)
    requires Inv(s) && a.Resume? && Enabled(s, a) && s.tasks[a.task].StartsSpare()
    ensures Inv(SpareResumed(s, a.task, a.healthy, a.ok))
  {
    SpareResumedKeepsTasksOk(s, a);
    SpareResumedConserves(s, a);
  }

  lemma QuiesceResumedKeepsInv(s: State, a: Action)
    requires Inv(s) && a.Resume? && Enabled(s, a) && s.tasks[a.task].Quiesces()
    ensures Inv(QuiesceResumed(s, a.task, a.ok, a.others))
  {
    QuiesceResumedKeepsTasksOk(s, a);
    QuiesceResumedConserves(s, a);
  }

  lemma EnsureResumedKeepsInv(s: State, a: Action)
    requires Inv(s) && a.Resume? && Enabled(s, a)
    requires s.tasks[a.task].EnsureWaiting? || s.tasks[a.task].EnsureHolding()
    ensures Inv(EnsureResumed(s, a.task, a.healthy, a.ok))
  {
    EnsureResumedKeepsTasksOk(s, a);
    EnsureResumedConserves(s, a);
  }

  /** A synchronous section: a sleep change, a new call, scheduling, discarding, or a done callback. */
  lemma SectionKeepsInv(s: State, a: Action)
    requires Inv(s) && Enabled(s, a) && !a.Resume?
    ensures Inv(Apply(s, a))
  {
    match a
    case SystemSleep(asleep) => SleepChangedKeepsInv(s, asleep);
    case ScheduleSpare => SpareScheduledKeepsInv(s);
    case DiscardElsewhere(p) => DiscardKeepsInv(s, p);
    case CallEnsure => CallKeepsInv(s);
    case SpareSettled =>
    case SleepSettled =>
  }

  lemma CallKeepsInv(s: State)
    requires Inv(s)
    ensures Inv(Goto(s.(nextTask := s.nextTask + 1), s.nextTask, EnsureWaiting))
  {
  }

  /** Every atomic step keeps the invariant. */
  lemma StepKeepsInv(s: State, a: Action)
    requires Inv(s) && Enabled(s, a)
    ensures Inv(Apply(s, a))
  {
    if !a.Resume? {
      SectionKeepsInv(s, a);
    } else if s.tasks[a.task].StartsSpare() {
      SpareResumedKeepsInv(s, a);
    } else if s.tasks[a.task].Quiesces() {
      QuiesceResumedKeepsInv(s, a);
    } else {
      EnsureResumedKeepsInv(s, a);
    }
  }

  lemma QuiesceResumedKeepsQuiet(s: State, a: Action)
    requires Inv(s) && Quiet(s) && s.sleeping && a.Resume? && Enabled(s, a) && s.tasks[a.task].Quiesces()
    ensures Quiet(QuiesceResumed(s, a.task, a.ok, a.others))
  {
  }

  lemma SectionKeepsQuiet(s: State, a: Action)
    requires Inv(s) && Enabled(s, a) && !a.Resume?
    requires Quiet(s) && s.sleeping && Apply(s, a).sleeping
    ensures Quiet(Apply(s, a))
  {
  }

  /** Nothing can start while the system stays asleep. */
  lemma StepKeepsQuiet(s: State, a: Action)
    requires Inv(s) && Enabled(s, a)
    requires Quiet(s) && s.sleeping && Apply(s, a).sleeping
    ensures Quiet(Apply(s, a))
  {
    if !a.Resume? {
      SectionKeepsQuiet(s, a);
    } else if s.tasks[a.task].Quiesces() {
      QuiesceResumedKeepsQuiet(s, a);
    } else {
      assert s.tasks[a.task].EnsureWaiting?;
      assert Apply(s, a) == Finish(s, a.task);
    }
  }

  lemma NextKeepsInv(s: State, s': State)
    requires Inv(s) && Next(s, s')
    ensures Inv(s')
  {
    var a :| Enabled(s, a) && s' == Apply(s, a);
    StepKeepsInv(s, a);
  }

  lemma NextKeepsQuiet(s: State, s': State)
    requires Inv(s) && Next(s, s') && Quiet(s) && s.sleeping && s'.sleeping
    ensures Quiet(s')
  {
    var a :| Enabled(s, a) && s' == Apply(s, a);
    StepKeepsQuiet(s, a);
  }

  lemma {:induction false} RunKeepsInv(run: seq<State>, i: nat)
    requires IsRun(run) && i < |run|
    ensures Inv(run[i])
  {
    if i > 0 {
      RunKeepsInv(run, i - 1);
      assert StepAt(run, i - 1);
      NextKeepsInv(run[i - 1], run[i]);
    }
  }

  /**
   * Suspend safety.  When a quiesce reaches its last await with its sleep
   * generation still current, neither an active nor a spare worker exists, and
   * in every later state up to the next wake none exists either.
   */
  lemma {:induction false} QuiescedUntilWake(run: seq<State>, i: nat, j: nat, t: TaskId)
    requires IsRun(run) && i <= j < |run|
    requires t in run[i].tasks && run[i].tasks[t].QuiesceBarrier? && run[i].StillAsleep(run[i].tasks[t].gen)
    requires forall k :: i <= k <= j ==> run[k].sleeping
    ensures run[j].worker.None? && run[j].spare.None?
    ensures Quiet(run[j])
  {
    RunKeepsInv(run, i);
    assert TaskOk(run[i], t);
    if i < j {
      QuiescedUntilWake(run, i, j - 1, t);
      RunKeepsInv(run, j - 1);
      assert StepAt(run, j - 1);
      NextKeepsQuiet(run[j - 1], run[j]);
    }
  }

  /**
   * No worker process is ever lost: in every reachable state each process that
   * was started is the active worker, the spare, or was discarded, and only one
   * of the three.  At most one coroutine is starting a spare.
   */
  lemma WorkersNeverLeak(run: seq<State>, i: nat, p: Process)
    requires IsRun(run) && i < |run|
    ensures var s := run[i];
            var held := (if s.worker == Some(p) then 1 else 0) + (if s.spare == Some(p) then 1 else 0)
                        + (if p in s.retired then 1 else 0);
            held == if p < s.nextProcess then 1 else 0
    ensures forall t, u | t in run[i].tasks && u in run[i].tasks ::
              run[i].tasks[t].StartsSpare() && run[i].tasks[u].StartsSpare() ==> t == u
  {
    RunKeepsInv(run, i);
    assert forall t :: t in run[i].tasks && run[i].tasks[t].StartsSpare() ==> TaskOk(run[i], t);
  }

  // --------------------------------------------------- what is not blocked

  ghost predicate Leads(s: State, actions: seq<Action>, after: State)
    decreases |actions|
  {
    if actions == [] then s == after
    else Enabled(s, actions[0]) && Leads(Apply(s, actions[0]), actions[1..], after)
  }

  lemma LeadsOne(s: State, a: Action, after: State)
    requires Enabled(s, a) && after == Apply(s, a)
    ensures Leads(s, [a], after)
  {
    assert [a][1..] == [];
  }

  lemma LeadsMore(s: State, a: Action, mid: State, rest: seq<Action>, after: State)
    requires Enabled(s, a) && mid == Apply(s, a) && Leads(mid, rest, after)
    ensures Leads(s, [a] + rest, after)
  {
    assert ([a] + rest)[1..] == rest;
  }

  lemma NextTaskIsNew(s: State)
    requires Inv(s)
    ensures s.nextTask !in s.tasks && s.spareTask != Some(s.nextTask)
  {
    assert forall t :: t in s.tasks ==> TaskOk(s, t);
  }

  lemma CreatingStarts(s: State, t: TaskId) returns (after: State)
    requires t in s.tasks && s.tasks[t].EnsureCreating?
    ensures var go := Resume(t, true, true, {}); Leads(s, [go, go], after)
    ensures after == s.(worker := Some(s.nextProcess), nextProcess := s.nextProcess + 1, lock := None,
                        tasks := s.tasks - {t})
  {
    var go := Resume(t, true, true, {});
    var s1 := WorkerCreated(s, t, true);
    assert s1 == Apply(s, go);
    after := FinishUnlocked(s1, t);
    assert after == Apply(s1, go);
    assert after.tasks == s.tasks - {t};
    LeadsOne(s1, go, after);
    LeadsMore(s, go, s1, [go], after);
  }

  /** A process in a slot, as a set. */
  function Occupant(p: Option<Process>): set<Process> {
    if p.Some? then {p.value} else {}
  }

  /** The next worker: a spare that still runs, or else a new process; a spare that died is retired. */
  function Picked(s: State, spareRuns: bool): State {
    if s.spare.Some? && spareRuns then s.(worker := s.spare, spare := None)
    else s.(worker := Some(s.nextProcess), nextProcess := s.nextProcess + 1, spare := None,
            retired := s.retired + Occupant(s.spare))
  }

  /** What one ensure is for: nothing while asleep or with a running worker, else the dead one is replaced. */
  function Ensured(s: State, workerRuns: bool, spareRuns: bool): State {
    if s.sleeping || (s.worker.Some? && workerRuns) then s
    else Picked(s.(worker := None, retired := s.retired + Occupant(s.worker)), spareRuns)
  }

  /** From the choice on, the picked worker is in its slot and the lock is free. */
  lemma ChoiceEnds(s: State, t: TaskId, spareRuns: bool) returns (actions: seq<Action>, after: State)
    requires t in s.tasks && !s.sleeping && s.worker.None?
    ensures Leads(EnsureChoose(s, t, spareRuns), actions, after)
    ensures after == Picked(s, spareRuns).(lock := None, tasks := s.tasks - {t})
  {
    var go := Resume(t, true, true, {});
    var s1 := EnsureChoose(s, t, spareRuns);
    if s.spare.Some? && spareRuns {
      actions, after := [], s1;
    } else if s.spare.Some? {
      var s2 := Goto(s1, t, EnsureCreating);
      assert s2 == Apply(s1, go);
      after := CreatingStarts(s2, t);
      assert after.tasks == s.tasks - {t};
      LeadsMore(s1, go, s2, [go, go], after);
      actions := [go] + [go, go];
    } else {
      after := CreatingStarts(s1, t);
      assert after.tasks == s.tasks - {t} && s.retired + {} == s.retired;
      actions := [go, go];
    }
  }

  /** With no worker in its slot, a wait for a spare start that is over comes first. */
  lemma WaitEnds(s: State, t: TaskId, spareRuns: bool) returns (actions: seq<Action>, after: State)
    requires t in s.tasks && !s.sleeping && s.worker.None? && !s.Running(s.spareTask) && s.spareTask != Some(t)
    ensures Leads(EnsureWaitForSpare(s, t, spareRuns), actions, after)
    ensures after == Picked(s, spareRuns).(lock := None, tasks := s.tasks - {t})
  {
    if s.spareTask.None? {
      actions, after := ChoiceEnds(s, t, spareRuns);
    } else {
      var go := Resume(t, spareRuns, true, {});
      var s1 := EnsureWaitForSpare(s, t, spareRuns);
      var s2 := EnsureChoose(s1, t, spareRuns);
      assert s2 == Apply(s1, go);
      var rest;
      rest, after := ChoiceEnds(s1, t, spareRuns);
      assert after.tasks == s.tasks - {t};
      LeadsMore(s1, go, s2, rest, after);
      actions := [go] + rest;
    }
  }

  lemma EnteredEnds(s: State, t: TaskId, workerRuns: bool, spareRuns: bool)
    returns (healthy: bool, actions: seq<Action>, after: State)
    requires t in s.tasks && !s.Running(s.spareTask) && s.spareTask != Some(t)
    ensures Leads(EnsureEntered(s, t, healthy), actions, after)
    ensures after == Ensured(s, workerRuns, spareRuns).(lock := None, tasks := s.tasks - {t})
  {
    healthy := if s.worker.Some? then workerRuns else spareRuns;
    var s1 := EnsureEntered(s, t, healthy);
    if s.sleeping || (s.worker.Some? && workerRuns) {
      actions, after := [], s1;
    } else if s.worker.None? {
      assert s.retired + {} == s.retired;
      actions, after := WaitEnds(s, t, spareRuns);
    } else {
      var go := Resume(t, spareRuns, true, {});
      var s2 := EnsureWaitForSpare(s1, t, spareRuns);
      assert s2 == Apply(s1, go);
      var rest;
      rest, after := WaitEnds(s1, t, spareRuns);
      assert after.tasks == s.tasks - {t};
      LeadsMore(s1, go, s2, rest, after);
      actions := [go] + rest;
    }
  }

  /**
   * What an undisturbed ensure achieves, whatever the slots hold and whichever of their processes
   * still run: exactly the ensured state, with the lock free again.
   */
  lemma UndisturbedEnsure(s: State, workerRuns: bool, spareRuns: bool) returns (actions: seq<Action>, after: State)
    requires Inv(s) && s.lock.None? && !s.Running(s.spareTask)
    ensures Leads(s, [CallEnsure] + actions, after)
    ensures after == Ensured(s, workerRuns, spareRuns).(nextTask := s.nextTask + 1)
  {
    var t := s.nextTask;
    NextTaskIsNew(s);
    var s1 := Apply(s, CallEnsure);
    var healthy, rest;
    healthy, rest, after := EnteredEnds(s1.(lock := Some(t)), t, workerRuns, spareRuns);
    var go := Resume(t, healthy, true, {});
    var s2 := EnsureEntered(s1.(lock := Some(t)), t, healthy);
    assert s2 == Apply(s1, go);
    assert after.tasks == s.tasks;
    LeadsMore(s1, go, s2, rest, after);
    actions := [go] + rest;
    LeadsMore(s, CallEnsure, s1, actions, after);
  }

  lemma CleanupRetires(s: State, t: TaskId, p: Process) returns (after: State)
    requires t in s.tasks && s.tasks[t] == EnsureCleanup(p) && s.worker == Some(p)
    ensures var go := Resume(t, true, true, {}); Leads(s, [go, go], after)
    ensures after == s.(worker := None, retired := s.retired + {p}, lock := None, tasks := s.tasks - {t})
  {
    var go := Resume(t, true, true, {});
    var s1 := Goto(Discard(s, p), t, EnsureAborting);
    assert s1 == Apply(s, go);
    after := FinishUnlocked(s1, t);
    assert after == Apply(s1, go);
    assert after.tasks == s.tasks - {t};
    LeadsOne(s1, go, after);
    LeadsMore(s, go, s1, [go], after);
  }

  /** A worker whose handshake fails, or that has no stdout, is retired before the lock is given up. */
  lemma FailedStartIsRetired(s: State, t: TaskId, usable: bool) returns (actions: seq<Action>, after: State)
    requires t in s.tasks && s.tasks[t].EnsureCreating?
    ensures Leads(s, [Resume(t, usable, true, {})] + actions, after)
    ensures after == s.(worker := None, nextProcess := s.nextProcess + 1, retired := s.retired + {s.nextProcess},
                        lock := None, tasks := s.tasks - {t})
  {
    var start, go, fail := Resume(t, usable, true, {}), Resume(t, true, true, {}), Resume(t, true, false, {});
    var p := s.nextProcess;
    var s1 := WorkerCreated(s, t, usable);
    assert s1 == Apply(s, start);
    if usable {
      var s2 := Goto(s1, t, EnsureCleanup(p));
      assert s2 == Apply(s1, fail);
      after := CleanupRetires(s2, t, p);
      LeadsMore(s1, fail, s2, [go, go], after);
      actions := [fail] + [go, go];
    } else {
      after := FinishUnlocked(s1, t);
      assert after == Apply(s1, go);
      LeadsOne(s1, go, after);
      actions := [go];
    }
    assert after.tasks == s.tasks - {t};
    LeadsMore(s, start, s1, actions, after);
  }

  /** Awake, without a spare and without a spare start, scheduling one puts a new process in the spare slot. */
  lemma UndisturbedSpareStarts(s: State) returns (after: State)
    requires Inv(s) && !s.sleeping && s.spare.None? && !s.Running(s.spareTask)
    ensures var go := Resume(s.nextTask, true, true, {}); Leads(s, [ScheduleSpare, go, go], after)
    ensures after == s.(spare := Some(s.nextProcess), nextProcess := s.nextProcess + 1,
                        spareTask := Some(s.nextTask), nextTask := s.nextTask + 1)
  {
    var t := s.nextTask;
    NextTaskIsNew(s);
    var go := Resume(t, true, true, {});
    var s1 := Apply(s, ScheduleSpare);
    var s2 := SpareCreated(s1, t, true);
    assert s2 == Apply(s1, go);
    after := Finish(s2, t);
    assert after == Apply(s2, go);
    assert after.tasks == s.tasks;
    LeadsOne(s2, go, after);
    LeadsMore(s1, go, s2, [go], after);
    LeadsMore(s, ScheduleSpare, s1, [go, go], after);
  }

  /** A spare whose handshake fails is retired, and the slot is empty again. */
  lemma FailedSpareIsRetired(s: State, t: TaskId) returns (after: State)
    requires t in s.tasks && s.tasks[t].SpareCreating? && s.spare.None? && s.worker != Some(s.nextProcess)
    ensures var go, fail := Resume(t, true, true, {}), Resume(t, true, false, {}); Leads(s, [go, fail, go, go], after)
    ensures after == s.(nextProcess := s.nextProcess + 1, retired := s.retired + {s.nextProcess},
                        tasks := s.tasks - {t})
  {
    var go, fail, p := Resume(t, true, true, {}), Resume(t, true, false, {}), s.nextProcess;
    var s1 := SpareCreated(s, t, true);
    assert s1 == Apply(s, go);
    var s2 := Goto(s1, t, SpareCleanup(p));
    assert s2 == Apply(s1, fail);
    var s3 := Goto(Discard(s2, p), t, SpareAborting);
    assert s3 == Apply(s2, go);
    after := Finish(s3, t);
    assert after == Apply(s3, go);
    assert after.tasks == s.tasks - {t};
    LeadsOne(s3, go, after);
    LeadsMore(s2, go, s3, [go], after);
    LeadsMore(s1, fail, s2, [go, go], after);
    LeadsMore(s, go, s1, [fail, go, go], after);
  }

  lemma {:induction false} LeadsOn(s: State, a: seq<Action>, mid: State, b: seq<Action>, after: State)
    requires Leads(s, a, mid) && Leads(mid, b, after)
    ensures Leads(s, a + b, after)
    decreases |a|
  {
    if a == [] {
      assert a + b == b;
    } else {
      assert (a + b)[1..] == a[1..] + b;
      LeadsOn(Apply(s, a[0]), a[1..], mid, b, after);
    }
  }

  /** The processes in the two slots. */
  function Held(s: State): set<Process> {
    (if s.worker.Some? then {s.worker.value} else {}) + (if s.spare.Some? then {s.spare.value} else {})
  }

  /** Both slots emptied into the retired processes. */
  function Emptied(s: State): State {
    s.(worker := None, spare := None, retired := s.retired + Held(s))
  }

  /** A quiesce past the worker takes the spare, if there is one, and leaves the lock. */
  lemma QuiesceWorkerLeaves(s: State, t: TaskId) returns (actions: seq<Action>, after: State)
    requires t in s.tasks && s.tasks[t].QuiesceWorker? && s.StillAsleep(s.tasks[t].gen) && s.worker.None?
    ensures Leads(s, actions, after)
    ensures after == Goto(Emptied(s).(lock := None), t, QuiesceBarrier(s.tasks[t].gen))
  {
    var go, gen := Resume(t, true, true, {}), s.tasks[t].gen;
    if s.spare.None? {
      actions, after := [go], Goto(s.(lock := None), t, QuiesceBarrier(gen));
      assert after == Apply(s, go);
      LeadsOne(s, go, after);
      assert Held(s) == {} && s.retired + {} == s.retired;
    } else {
      var s1 := Goto(Discard(s, s.spare.value), t, QuiesceSpare(gen));
      assert s1 == Apply(s, go);
      actions, after := [go] + [go], Goto(s1.(lock := None), t, QuiesceBarrier(gen));
      assert after == Apply(s1, go);
      assert after.tasks == s.tasks[t := QuiesceBarrier(gen)];
      assert Held(s) == {s.spare.value};
      LeadsOne(s1, go, after);
      LeadsMore(s, go, s1, [go], after);
    }
  }

  lemma QuiesceWithoutWorkerLeaves(s: State, t: TaskId) returns (actions: seq<Action>, after: State)
    requires t in s.tasks && s.tasks[t].QuiesceLock? && s.StillAsleep(s.tasks[t].gen)
    requires s.lock.None? && s.worker.None?
    ensures Leads(s, actions, after)
    ensures after == Goto(Emptied(s), t, QuiesceBarrier(s.tasks[t].gen))
  {
    var go, gen := Resume(t, true, true, {}), s.tasks[t].gen;
    if s.spare.None? {
      actions, after := [go], Goto(s, t, QuiesceBarrier(gen));
      assert after == Apply(s, go);
      LeadsOne(s, go, after);
      assert Held(s) == {} && s.retired + {} == s.retired;
    } else {
      var s1 := Goto(Discard(s.(lock := Some(t)), s.spare.value), t, QuiesceSpare(gen));
      assert s1 == Apply(s, go);
      actions, after := [go] + [go], Goto(s1.(lock := None), t, QuiesceBarrier(gen));
      assert after == Apply(s1, go);
      assert after.tasks == s.tasks[t := QuiesceBarrier(gen)];
      assert Held(s) == {s.spare.value};
      LeadsOne(s1, go, after);
      LeadsMore(s, go, s1, [go], after);
    }
  }

  /** With the lock free, a current quiesce retires whatever the slots hold and reaches its last await. */
  lemma LockedQuiesceEmpties(s: State, t: TaskId) returns (actions: seq<Action>, after: State)
    requires Inv(s) && t in s.tasks && s.tasks[t].QuiesceLock? && s.StillAsleep(s.tasks[t].gen) && s.lock.None?
    ensures Leads(s, actions, after)
    ensures after == Goto(Emptied(s), t, QuiesceBarrier(s.tasks[t].gen))
  {
    var go, gen := Resume(t, true, true, {}), s.tasks[t].gen;
    if s.worker.None? {
      actions, after := QuiesceWithoutWorkerLeaves(s, t);
    } else {
      var s1 := Goto(Discard(s.(lock := Some(t)), s.worker.value), t, QuiesceWorker(gen));
      assert s1 == Apply(s, go);
      actions, after := QuiesceWorkerLeaves(s1, t);
      assert after.tasks == s.tasks[t := QuiesceBarrier(gen)];
      assert s1.retired + Held(s1) == s.retired + Held(s);
      LeadsMore(s, go, s1, actions, after);
      actions := [go] + actions;
    }
  }

  /** Only the processes and task u may have changed; u is gone. */
  predicate EndsTask(s: State, after: State, u: TaskId) {
    && after == s.(worker := after.worker, spare := after.spare, retired := after.retired, lock := after.lock,
                   tasks := s.tasks - {u})
    && (after.lock == s.lock || after.lock.None?)
  }

  /** How many more cancellations a coroutine outlives. */
  function Unwinding(pc: Pc): nat {
    if pc.SpareHandshake? || pc.EnsureHandshake? then 2 else if pc.SpareCleanup? || pc.EnsureCleanup? then 1 else 0
  }

  /** A cancellation ends the coroutine or brings it one await nearer to its end. */
  lemma CancelStep(s: State, u: TaskId)
    requires u in s.tasks
    ensures var s' := Apply(s, Resume(u, true, false, {}));
            if u in s'.tasks then
              && Unwinding(s'.tasks[u]) < Unwinding(s.tasks[u])
              && s' == s.(worker := s'.worker, spare := s'.spare, retired := s'.retired, tasks := s'.tasks)
              && s'.tasks - {u} == s.tasks - {u}
            else EndsTask(s, s', u)
  {
    if s.tasks[u].StartsSpare() {
      assert Apply(s, Resume(u, true, false, {})) == SpareResumed(s, u, true, false);
    } else if s.tasks[u].Quiesces() {
      assert Apply(s, Resume(u, true, false, {})) == QuiesceResumed(s, u, false, {});
    } else {
      assert Apply(s, Resume(u, true, false, {})) == EnsureResumed(s, u, true, false);
    }
  }

  /** Any coroutine that is cancelled, and cancelled again, unwinds to its end. */
  lemma CancelledTaskEnds(s: State, u: TaskId) returns (actions: seq<Action>, after: State)
    requires u in s.tasks
    ensures Leads(s, actions, after) && EndsTask(s, after, u)
    decreases Unwinding(s.tasks[u])
  {
    var cancel := Resume(u, true, false, {});
    var s1 := Apply(s, cancel);
    CancelStep(s, u);
    if u !in s1.tasks {
      actions, after := [cancel], s1;
      LeadsOne(s, cancel, s1);
    } else {
      var rest;
      rest, after := CancelledTaskEnds(s1, u);
      LeadsMore(s, cancel, s1, rest, after);
      actions := [cancel] + rest;
    }
  }

  /**
   * A sleep change is a new generation. Going to sleep schedules one quiesce for it, behind an
   * earlier one that still runs, and waking schedules none; nothing else changes.
   */
  lemma SleepIsScheduled(s: State)
    ensures SleepChanged(s, false) == s.(sleeping := false, generation := s.generation + 1)
    ensures var t, s' := s.nextTask, SleepChanged(s, true);
            && s' == s.(sleeping := true, generation := s.generation + 1, sleepTask := Some(t), nextTask := t + 1,
                        tasks := s'.tasks)
            && t in s'.tasks && s'.tasks - {t} == s.tasks - {t}
            && s'.tasks[t] == if s.Running(s.sleepTask) then QuiesceQueued(s.generation + 1, s.sleepTask.value)
                              else QuiesceStart(s.generation + 1)
  {
  }

  /** A current quiesce gets to the lock once the one task it waits for has ended. */
  lemma GatheredQuiesceLocks(s: State, t: TaskId, waiting: set<TaskId>) returns (actions: seq<Action>, after: State)
    requires t in s.tasks && s.tasks[t] == QuiesceGather(s.generation, waiting) && s.sleeping
    requires t !in waiting && forall u :: u in waiting ==> s.spareTask == Some(u)
    ensures Leads(s, actions, after) && t in after.tasks && after.tasks[t] == QuiesceLock(s.generation)
    ensures after.StillAsleep(s.generation)
  {
    var go := Resume(t, true, true, {});
    var first, mid := [], s;
    if s.Running(s.spareTask) && s.spareTask.value in waiting {
      first, mid := CancelledTaskEnds(s, s.spareTask.value);
    }
    after := Goto(mid, t, QuiesceLock(s.generation));
    assert waiting !! mid.tasks.Keys;
    assert after == Apply(mid, go);
    LeadsOne(mid, go, after);
    LeadsOn(s, first, mid, [go], after);
    actions := first + [go];
  }

  /** A quiesce that may begin gathers the spare starter, if one runs. */
  lemma StartedQuiesceLocks(s: State, t: TaskId) returns (actions: seq<Action>, after: State)
    requires t in s.tasks && s.sleeping && s.spareTask != Some(t)
    requires s.tasks[t] == QuiesceStart(s.generation)
             || (s.tasks[t].QuiesceQueued? && s.tasks[t].gen == s.generation && s.tasks[t].previous !in s.tasks)
    ensures Leads(s, actions, after) && t in after.tasks && after.tasks[t] == QuiesceLock(s.generation)
    ensures after.StillAsleep(s.generation)
  {
    var go := Resume(t, true, true, {});
    var starter := if s.Running(s.spareTask) then {s.spareTask.value} else {};
    var s1 := Goto(s, t, QuiesceGather(s.generation, {} + starter));
    assert s1 == Apply(s, go);
    var rest;
    rest, after := GatheredQuiesceLocks(s1, t, {} + starter);
    LeadsMore(s, go, s1, rest, after);
    actions := [go] + rest;
  }

  /**
   * From every reachable state a sleep notification can lead its quiesce to the start lock with its
   * generation current, past an earlier quiesce and a spare start that are still running.
   */
  lemma SleepLeadsToLock(s: State) returns (actions: seq<Action>, after: State)
    requires Inv(s)
    ensures Leads(s, [SystemSleep(true)] + actions, after)
    ensures s.nextTask in after.tasks && after.tasks[s.nextTask] == QuiesceLock(s.generation + 1)
    ensures after.StillAsleep(s.generation + 1)
  {
    var t := s.nextTask;
    NextTaskIsNew(s);
    var s1 := SleepChanged(s, true);
    var first, mid := [], s1;
    if s.Running(s.sleepTask) {
      first, mid := CancelledTaskEnds(s1, s.sleepTask.value);
    }
    var rest;
    rest, after := StartedQuiesceLocks(mid, t);
    LeadsOn(s1, first, mid, rest, after);
    actions := first + rest;
    LeadsMore(s, SystemSleep(true), s1, actions, after);
  }

  lemma {:induction false} LeadsKeepsInv(s: State, actions: seq<Action>, after: State)
    requires Inv(s) && Leads(s, actions, after)
    ensures Inv(after)
    decreases |actions|
  {
    if actions != [] {
      StepKeepsInv(s, actions[0]);
      LeadsKeepsInv(Apply(s, actions[0]), actions[1..], after);
    }
  }

  /** Whoever holds the start lock is cancelled to its end; another task is untouched. */
  lemma LockIsFreed(s: State, t: TaskId) returns (actions: seq<Action>, after: State)
    requires Inv(s) && t in s.tasks && s.lock != Some(t)
    ensures Leads(s, actions, after) && after.lock.None? && t in after.tasks && after.tasks[t] == s.tasks[t]
    ensures (after.sleeping, after.generation) == (s.sleeping, s.generation)
  {
    if s.lock.None? {
      actions, after := [], s;
    } else {
      actions, after := CancelledTaskEnds(s, s.lock.value);
      LeadsKeepsInv(s, actions, after);
    }
  }

  /**
   * From every reachable state a sleep notification can bring its own quiesce to the last await,
   * with its generation current, nothing running and nobody licensed to start anything.
   */
  lemma SleepCanQuiesce(s: State) returns (actions: seq<Action>, after: State)
    requires Inv(s)
    ensures Leads(s, [SystemSleep(true)] + actions, after) && Quiet(after)
    ensures s.nextTask in after.tasks && after.tasks[s.nextTask] == QuiesceBarrier(s.generation + 1)
    ensures after.StillAsleep(s.generation + 1)
  {
    var t := s.nextTask;
    var first, s1 := SleepLeadsToLock(s);
    LeadsKeepsInv(s, [SystemSleep(true)] + first, s1);
    var second, s2 := LockIsFreed(s1, t);
    LeadsKeepsInv(s1, second, s2);
    var third;
    third, after := LockedQuiesceEmpties(s2, t);
    LeadsKeepsInv(s2, third, after);
    assert TaskOk(after, t);
    LeadsOn(s1, second, s2, third, after);
    LeadsOn(s, [SystemSleep(true)] + first, s1, second + third, after);
    actions := first + (second + third);
    assert [SystemSleep(true)] + actions == [SystemSleep(true)] + first + (second + third);
  }

  // ------------------------------------------------- the fields, in place

  /** The supervisor object: its synchronous sections update the fields in place. */
  class Supervisor {
    var systemSleeping: bool
    var sleepGeneration: nat
    var nativeWorker: Option<Process>
    var nativeSpareWorker: Option<Process>
    var spareWarmTask: Option<TaskId>
    var sleepTask: Option<TaskId>
    var startLock: Option<TaskId>
    var tasks: map<TaskId, Pc>
    var nextTask: TaskId
    var nextProcess: Process
    var retired: set<Process>

    ghost function View(): State
      reads this
    {
      State(systemSleeping, sleepGeneration, nativeWorker, nativeSpareWorker, spareWarmTask, sleepTask,
            startLock, tasks, nextTask, nextProcess, retired)
    }

    /** Startup is fail-closed: asleep until login1 says otherwise. */
    constructor ()
      ensures View() == INIT
    {
      systemSleeping, sleepGeneration := true, 0;
      nativeWorker, nativeSpareWorker, spareWarmTask, sleepTask, startLock := None, None, None, None, None;
      tasks, nextTask, nextProcess, retired := map[], 0, 0, {};
    }

    method Spawn(pc: Pc) returns (t: TaskId)
      modifies this`tasks, this`nextTask
      ensures t == old(nextTask)
      ensures View() == Goto(old(View()).(nextTask := old(nextTask) + 1), t, pc)
    {
      t := nextTask;
      nextTask := nextTask + 1;
      tasks := tasks[t := pc];
    }

    method SystemSleepChanged(asleep: bool)
      modifies this
      ensures View() == SleepChanged(old(View()), asleep)
    {
      sleepGeneration := sleepGeneration + 1;
      systemSleeping := asleep;
      if asleep {
        var previous := sleepTask;
        var pc := QuiesceStart(sleepGeneration);
        if previous.Some? && previous.value in tasks {
          pc := QuiesceQueued(sleepGeneration, previous.value);
        }
        var t := Spawn(pc);
        sleepTask := Some(t);
      }
    }

    method ScheduleNativeSpare()
      modifies this
      ensures View() == SpareScheduled(old(View()))
    {
      if systemSleeping { return; }
      if (spareWarmTask.Some? && spareWarmTask.value in tasks) || nativeSpareWorker.Some? { return; }
      var t := Spawn(SpareCreating);
      spareWarmTask := Some(t);
    }

    method DiscardNativeWorker(p: Process)
      modifies this
      ensures View() == Discard(old(View()), p)
    {
      if nativeWorker == Some(p) {
        nativeWorker := None;
      } else if nativeSpareWorker == Some(p) {
        nativeSpareWorker := None;
      } else {
        return;
      }
      retired := retired + {p};
    }

    method Await(t: TaskId, pc: Pc)
      modifies this`tasks
      ensures View() == Goto(old(View()), t, pc)
    {
      tasks := tasks[t := pc];
    }

    method End(t: TaskId, unlock: bool)
      modifies this`tasks, this`startLock
      ensures View() == if unlock then FinishUnlocked(old(View()), t) else Finish(old(View()), t)
    {
      if unlock { startLock := None; }
      tasks := tasks - {t};
    }

    /** The last part of _ensure_native_worker_locked: promote, replace or start. */
    method ChooseWorker(t: TaskId, healthy: bool)
      modifies this
      ensures View() == EnsureChoose(old(View()), t, healthy)
    {
      if systemSleeping {
        End(t, true);
      } else if nativeSpareWorker.Some? && healthy {
        nativeWorker, nativeSpareWorker := nativeSpareWorker, None;
        End(t, true);
      } else if nativeSpareWorker.Some? {
        DiscardNativeWorker(nativeSpareWorker.value);
        Await(t, EnsureDiscardingSpare);
      } else {
        Await(t, EnsureCreating);
      }
    }

    method AwaitSpareStart(t: TaskId, healthy: bool)
      modifies this
      ensures View() == EnsureWaitForSpare(old(View()), t, healthy)
    {
      if spareWarmTask.Some? {
        Await(t, EnsureAwaitingSpare(spareWarmTask.value));
      } else {
        ChooseWorker(t, healthy);
      }
    }

    /** _ensure_native_worker once it has the lock. */
    method EnterEnsure(t: TaskId, healthy: bool)
      modifies this
      ensures View() == EnsureEntered(old(View()).(lock := Some(t)), t, healthy)
    {
      startLock := Some(t);
      if systemSleeping || (nativeWorker.Some? && healthy) {
        End(t, true);
      } else if nativeWorker.Some? {
        DiscardNativeWorker(nativeWorker.value);
        Await(t, EnsureDiscarding);
      } else {
        AwaitSpareStart(t, healthy);
      }
    }

    /** _start_native_worker once the subprocess exists. */
    method AdoptWorker(t: TaskId, healthy: bool)
      modifies this
      ensures View() == WorkerCreated(old(View()), t, healthy)
    {
      var p := nextProcess;
      nativeWorker, nextProcess := Some(p), p + 1;
      if healthy {
        Await(t, EnsureHandshake(p));
      } else {
        DiscardNativeWorker(p);
        Await(t, EnsureAborting);
      }
    }

    /** _ensure_native_worker and _start_native_worker, from one await to the next. */
    method EnsureSection(t: TaskId, healthy: bool, ok: bool)
      requires t in tasks
      requires tasks[t].EnsureWaiting? || tasks[t].EnsureHolding()
      modifies this
      ensures View() == EnsureResumed(old(View()), t, healthy, ok)
    {
      match tasks[t] {
        case EnsureWaiting => if ok { EnterEnsure(t, healthy); } else { End(t, false); }
        case EnsureDiscarding => if ok { AwaitSpareStart(t, healthy); } else { End(t, true); }
        case EnsureAwaitingSpare(_) => if ok { ChooseWorker(t, healthy); } else { End(t, true); }
        case EnsureDiscardingSpare => if ok { Await(t, EnsureCreating); } else { End(t, true); }
        case EnsureCreating => if ok { AdoptWorker(t, healthy); } else { End(t, true); }
        case EnsureHandshake(p) => if ok { End(t, true); } else { Await(t, EnsureCleanup(p)); }
        case EnsureCleanup(p) =>
          DiscardNativeWorker(p);
          Await(t, EnsureAborting);
        case EnsureAborting => End(t, true);
      }
    }

    method LeaveQuiesce(t: TaskId, gen: nat)
      modifies this
      ensures View() == QuiesceLeave(old(View()), t, gen)
    {
      if systemSleeping && sleepGeneration == gen {
        startLock := None;
        Await(t, QuiesceBarrier(gen));
      } else {
        End(t, true);
      }
    }

    method TakeSpare(t: TaskId, gen: nat)
      modifies this
      ensures View() == QuiesceTakeSpare(old(View()), t, gen)
    {
      if nativeSpareWorker.Some? {
        DiscardNativeWorker(nativeSpareWorker.value);
        Await(t, QuiesceSpare(gen));
      } else {
        LeaveQuiesce(t, gen);
      }
    }

    method BeginQuiesce(t: TaskId, gen: nat, others: set<TaskId>)
      modifies this
      ensures View() == QuiesceBegin(old(View()), t, gen, others)
    {
      if !(systemSleeping && sleepGeneration == gen) {
        End(t, false);
      } else if spareWarmTask.Some? && spareWarmTask.value in tasks {
        Await(t, QuiesceGather(gen, others + {spareWarmTask.value}));
      } else {
        Await(t, QuiesceGather(gen, others + {}));
      }
    }

    /** _quiesce_hardware_for_sleep, from one await to the next. */
    method QuiesceSection(t: TaskId, ok: bool, others: set<TaskId>)
      requires t in tasks
      requires tasks[t].Quiesces()
      modifies this
      ensures View() == QuiesceResumed(old(View()), t, ok, others)
    {
      var pc := tasks[t];
      var current := systemSleeping && sleepGeneration == pc.gen;
      if !ok {
        End(t, pc.HoldsLock());
        return;
      }
      match pc {
        case QuiesceQueued(gen, _) => BeginQuiesce(t, gen, others);
        case QuiesceStart(gen) => BeginQuiesce(t, gen, others);
        case QuiesceGather(gen, _) => if current { Await(t, QuiesceLock(gen)); } else { End(t, false); }
        case QuiesceLock(gen) =>
          if !current {
            End(t, false);
          } else {
            startLock := Some(t);
            if nativeWorker.Some? {
              DiscardNativeWorker(nativeWorker.value);
              Await(t, QuiesceWorker(gen));
            } else {
              TakeSpare(t, gen);
            }
          }
        case QuiesceWorker(gen) => TakeSpare(t, gen);
        case QuiesceSpare(gen) => LeaveQuiesce(t, gen);
        case QuiesceBarrier(_) => End(t, false);
      }
    }

    /** _start_native_worker for the spare, from one await to the next. */
    method SpareSection(t: TaskId, healthy: bool, ok: bool)
      requires t in tasks
      requires tasks[t].StartsSpare()
      modifies this
      ensures View() == SpareResumed(old(View()), t, healthy, ok)
    {
      match tasks[t] {
        case SpareCreating =>
          if !ok {
            End(t, false);
          } else {
            var p := nextProcess;
            nativeSpareWorker, nextProcess := Some(p), p + 1;
            if healthy {
              Await(t, SpareHandshake(p));
            } else {
              DiscardNativeWorker(p);
              Await(t, SpareAborting);
            }
          }
        case SpareHandshake(p) => if ok { End(t, false); } else { Await(t, SpareCleanup(p)); }
        case SpareCleanup(p) =>
          DiscardNativeWorker(p);
          Await(t, SpareAborting);
        case SpareAborting => End(t, false);
      }
    }
  }
}
