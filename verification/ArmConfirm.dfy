/** The arm / confirm / cancel state machine of coordinator/operations.py, coordinator/state.py
    and the arm half of coordinator/recipes.py.

    A press of a grind, pour or recipe button arms the operation; a second press of the same
    button starts it. Presses run as tasks that wait for the link and the machine between
    their assignments, so several of them, cancels, machine events and polls interleave. A
    step is a stretch of code between two awaits; with the link up and the machine awake a
    confirming press reaches its first write without one. */
module ArmConfirm {
  import opened Basics
  import BrewChain

  type Job = BrewChain.Job

  datatype Op = Grind | Pour | Recipe

  datatype Active = NoRun | ManualGrind | ManualPour | RecipeRun

  datatype Page = HomePage | GrindPage | PourPage | ScalePage | SettingsPage

  /** The commands that set a motor or water going. */
  datatype StartCommand =
    | GrinderStart                 // 3500
    | BrewerStart                  // 4506
    | RecipeExecute                // 8002
    | TeaMake(bytes: seq<byte>)    // 4512

  /** A press that has not come to its end. An arm is on its way to the machine, for a recipe with
      the job it was prepared with; a confirm waits for the link, for the machine to wake, for
      the outcome of an attempt, or before the next attempt. */
  datatype Task =
    | Arming(op: Op, job: Option<Job>)
    | Connecting(op: Op)
    | Waking(op: Op)
    | Sending(op: Op, asleep: bool, attempt: int, gated: bool)   // gated: waits for the echo of 4512
    | Resting(op: Op, asleep: bool, attempt: int)

  datatype Signal =
    | EasySlotStarted | GrindingStarted | BrewingStarted
    | GrindingComplete | RunComplete | RunError | PodDetected

  /** What the pause button goes by: the state string. */
  datatype Shown = ShowsPaused | ShowsBusy | ShowsOther

  datatype Telemetry = Telemetry(screen: Option<Page>, lastPage: Option<Page>,
                                 grinderRunning: bool, brewerRunning: bool, brewLabel: bool)

  datatype Entry =
    | Pressed(op: Op, id: nat, confirms: bool)
    | Armed(op: Op, id: nat, job: Option<Job>, bytes: Option<seq<byte>>)
    | Started(op: Op, id: nat, command: StartCommand)
    | ServiceStarted(op: Op)
    | Confirming(op: Op, id: nat)       // a confirm has the link
    | ConfirmEnded(op: Op, id: nat)
    | RunFailed                         // the confirm or the service of a recipe raised
    | PausePressed(sent: seq<int>)
    | Cancelled(quits: seq<int>)
    | Signalled(signal: Signal)
    | Polled(screen: Option<Page>)
    | ManualRun(op: Op)
    | Observed(telemetry: Telemetry)

  /** _armed_operation and the two fields that belong to an armed recipe. */
  datatype Arm = Arm(op: Option<Op>, isTea: bool, payload: Option<seq<byte>>)

  /** What is running, and the bookkeeping of a manual run's pauses. */
  datatype RunFlags = RunFlags(active: Active, podPrompt: bool, paused: bool, runSeen: bool, pauseSeen: bool)

  datatype State = State(arm: Arm, run: RunFlags, lastScreen: Option<Page>,
                         tasks: map<nat, Task>, nextId: nat, log: seq<Entry>)

  const NO_ARM := Arm(None, false, None)
  const INITIAL := State(NO_ARM, RunFlags(NoRun, false, false, false, false), None, map[], 0, [])

  datatype Event =
    | Press(op: Op, link: bool, asleep: bool)
    | NotConnected(id: nat)
    | Prepared(id: nat, job: Job)
    | ArmLanded(id: nat, returned: Option<seq<byte>>)
    | ArmFailed(id: nat)
    | Linked(id: nat, asleep: bool)
    | Woken(id: nat)
    | AttemptOver(id: nat, outcome: BrewChain.Outcome, sleeping: bool)
    | Rested(id: nat)
    | WaitFailed(id: nat)   // waking the machine raises, or the wait is broken off
    | Cancel(connected: bool, runsOn: bool)   // runsOn: a stopped motor still reads running after the watch window
    | Dispatch(signal: Signal)
    | Poll(telemetry: Telemetry)
    | PauseResume(connected: bool, shown: Shown)
    | ServiceStart(op: Op)
    | ServiceFail(op: Op)

  // ------------------------------------------------------------------
  // Steps
  // ------------------------------------------------------------------

  function RunOf(op: Op): Active {
    match op case Grind => ManualGrind case Pour => ManualPour case Recipe => RecipeRun
  }

  /** The machine page an armed operation waits on; a recipe has none. */
  function PageOf(op: Op): Option<Page> {
    match op case Grind => Some(GrindPage) case Pour => Some(PourPage) case Recipe => None
  }

  /** The operation that runs from a page. */
  function OpOfPage(p: Option<Page>): Option<Op> {
    if p == Some(GrindPage) then Some(Grind) else if p == Some(PourPage) then Some(Pour) else None
  }

  function OwnPage(a: Active): Option<Page> {
    match a case ManualGrind => Some(GrindPage) case ManualPour => Some(PourPage) case _ => None
  }

  function NoManualRun(r: RunFlags): RunFlags {
    r.(paused := false, runSeen := false, pauseSeen := false)
  }

  function QuitCommand(op: Op): int {
    match op case Grind => 8012 case Pour => 8013 case Recipe => 8017
  }

  /** The stop of a manual run, sent a second time to a motor that runs on. */
  function Stops(stop: int, runsOn: bool): seq<int> { if runsOn then [stop, stop] else [stop] }

  /** What a cancel sends once connected, from the bookkeeping it found. */
  function QuitCommands(s: State, runsOn: bool): seq<int> {
    if s.arm.op.Some? then
      if s.run.podPrompt && s.arm.op != Some(Recipe) then [QuitCommand(s.arm.op.value), 8017]
      else [QuitCommand(s.arm.op.value)]
    else if s.run.podPrompt then [8017]
    else match s.run.active
         case ManualGrind => Stops(3505, runsOn) + [8012]
         case ManualPour => Stops(4507, runsOn) + [8013]
         case _ => [40519]
  }

  /** The start command a confirm sends at the moment it sends it; `None` stands for the
      missing-payload error. */
  function CommandFor(arm: Arm, op: Op): Option<StartCommand> {
    match op
    case Grind => Some(GrinderStart)
    case Pour => Some(BrewerStart)
    case Recipe =>
      if !arm.isTea then Some(RecipeExecute)
      else if arm.payload.Some? then Some(TeaMake(arm.payload.value))
      else None
  }

  /** Of the starts only 4512 waits for its echo. */
  predicate Gated(command: Option<StartCommand>) { command.Some? && command.value.TeaMake? }

  /** Without an echo to wait for an attempt cannot time out. */
  predicate CanEnd(task: Task, outcome: BrewChain.Outcome)
    requires task.Sending?
  {
    outcome.TimedOut? ==> task.gated
  }

  /** One attempt of a confirm: the flags are read and the start is sent at this moment. */
  function Fire(s: State, id: nat, op: Op, asleep: bool, attempt: int): State {
    var command := CommandFor(s.arm, op);
    s.(tasks := s.tasks[id := Sending(op, asleep, attempt, Gated(command))],
       log := if command.Some? then s.log + [Started(op, id, command.value)] else s.log)
  }

  /** A confirm that has the link: a sleeping machine is woken first. */
  function Confirm(s: State, id: nat, op: Op, asleep: bool): State {
    var t := s.(run := s.run.(active := RunOf(op)), log := s.log + [Confirming(op, id)]);
    if asleep then t.(tasks := t.tasks[id := Waking(op)]) else Fire(t, id, op, false, 1)
  }

  function PressStep(s: State, op: Op, link: bool, asleep: bool): State {
    var confirms := s.arm.op == Some(op);
    var t := s.(nextId := s.nextId + 1, log := s.log + [Pressed(op, s.nextId, confirms)]);
    if !confirms then t.(tasks := t.tasks[s.nextId := Arming(op, None)])
    else if !link then t.(tasks := t.tasks[s.nextId := Connecting(op)])
    else Confirm(t, s.nextId, op, asleep)
  }

  /** What an arm's end assigns: for a recipe, whether its job is tea and what the arm chain
      returned. */
  function ArmLandedStep(s: State, id: nat, returned: Option<seq<byte>>): State
    requires id in s.tasks && s.tasks[id].Arming?
  {
    var task := s.tasks[id];
    if task.op != Recipe then
      s.(arm := s.arm.(op := Some(task.op)), tasks := s.tasks - {id}, log := s.log + [Armed(task.op, id, None, None)])
    else if task.job.Some? && BrewChain.ArmReturns(task.job.value, returned) then
      s.(arm := Arm(Some(Recipe), BrewChain.IsTea(task.job.value.recipe), returned), tasks := s.tasks - {id},
         log := s.log + [Armed(Recipe, id, task.job, returned)])
    else s
  }

  function ConfirmOverStep(s: State, id: nat, ok: bool): State
    requires id in s.tasks
  {
    var op := s.tasks[id].op;
    s.(arm := if op == Recipe then NO_ARM else s.arm.(op := None),
       run := if op == Recipe && !ok then s.run.(active := NoRun) else s.run,
       tasks := s.tasks - {id}, log := s.log + [ConfirmEnded(op, id)] + if op == Recipe && !ok then [RunFailed] else [])
  }

  function AttemptOverStep(s: State, id: nat, outcome: BrewChain.Outcome, sleeping: bool): State
    requires id in s.tasks && s.tasks[id].Sending?
  {
    var task := s.tasks[id];
    if BrewChain.Again(outcome, task.asleep, sleeping, task.attempt) then
      s.(tasks := s.tasks[id := Resting(task.op, task.asleep, task.attempt + 1)])
    else ConfirmOverStep(s, id, outcome.Done?)
  }

  /** What a cancel leaves in the log. */
  function CancelEntry(s: State, cancel: Event): Entry
    requires cancel.Cancel?
  {
    Cancelled(if cancel.connected then QuitCommands(s, cancel.runsOn) else [])
  }

  function CancelStep(s: State, cancel: Event): State
    requires cancel.Cancel?
  {
    s.(arm := NO_ARM, run := NoManualRun(s.run.(active := NoRun, podPrompt := false)),
       log := s.log + [CancelEntry(s, cancel)])
  }

  /** The arm after a machine event. */
  function ArmAfterSignal(arm: Arm, signal: Signal): Arm {
    match signal
    case EasySlotStarted => NO_ARM
    case GrindingStarted =>
      if arm.op == Some(Recipe) then NO_ARM else if arm.op == Some(Grind) then arm.(op := None) else arm
    case BrewingStarted =>
      if arm.op == Some(Recipe) then NO_ARM else if arm.op == Some(Pour) then arm.(op := None) else arm
    case _ => arm
  }

  function ActiveAfterStart(active: Active, arm: Arm, signal: Signal): Active {
    match signal
    case EasySlotStarted => RecipeRun
    case GrindingStarted =>
      if arm.op == Some(Recipe) then RecipeRun else if arm.op == Some(Grind) then ManualGrind else active
    case BrewingStarted =>
      if arm.op == Some(Recipe) then RecipeRun else if arm.op == Some(Pour) then ManualPour else active
    case _ => active
  }

  function Prompted(run: RunFlags, signal: Signal): RunFlags {
    if signal == PodDetected then run.(podPrompt := true)
    else if signal == GrindingStarted || signal == BrewingStarted then run.(podPrompt := false)
    else run
  }

  function Ended(run: RunFlags, signal: Signal): RunFlags {
    if signal == RunComplete || signal == RunError then NoManualRun(run.(active := NoRun))
    else if signal == GrindingComplete && run.active == ManualGrind then run.(active := NoRun)
    else run
  }

  function RunAfterSignal(run: RunFlags, arm: Arm, signal: Signal): RunFlags {
    var prompted := Prompted(run, signal);
    Ended(prompted.(active := ActiveAfterStart(prompted.active, arm, signal)), signal)
  }

  function DispatchStep(s: State, signal: Signal): State {
    s.(arm := ArmAfterSignal(s.arm, signal), run := RunAfterSignal(s.run, s.arm, signal),
       log := s.log + [Signalled(signal)])
  }

  /** The machine left the armed page for home. */
  predicate LeftForHome(arm: Arm, before: Option<Page>, screen: Option<Page>) {
    && screen == Some(HomePage)
    && arm.op.Some? && PageOf(arm.op.value).Some? && before == PageOf(arm.op.value)
  }

  /** _reconcile_armed_with_screen. */
  function ReconcileArmed(s: State, screen: Option<Page>): State {
    s.(arm := if LeftForHome(s.arm, s.lastScreen, screen) then s.arm.(op := None) else s.arm,
       lastScreen := screen, log := s.log + [Polled(screen)])
  }

  predicate ManualRunning(op: Op, t: Telemetry) {
    if op == Pour then t.brewerRunning || t.brewLabel else t.grinderRunning
  }

  /** A run that began on a manual page with nothing else active belongs to that page. */
  predicate AdoptsRun(s: State, t: Telemetry) {
    var op := OpOfPage(t.lastPage);
    && op.Some? && ManualRunning(op.value, t)
    && s.run.active == NoRun && (s.arm.op.None? || s.arm.op == op)
  }

  function AdoptRun(s: State, op: Op): State {
    s.(arm := s.arm.(op := None), run := s.run.(active := RunOf(op)), log := s.log + [ManualRun(op)])
  }

  function RunAfterPoll(r: RunFlags, t: Telemetry): RunFlags {
    var op := OpOfPage(t.lastPage);
    if op.Some? && ManualRunning(op.value, t) then
      if r.active != RunOf(op.value) then r
      else if r.pauseSeen then r.(runSeen := true, paused := false, pauseSeen := false)
      else r.(runSeen := true)
    else
      var own := OwnPage(r.active);
      if own.None? then NoManualRun(r)
      else if t.screen.Some? && t.screen != own then NoManualRun(r.(active := NoRun))
      else if t.screen == own && r.paused then r.(pauseSeen := true)
      else if t.screen == own && r.runSeen then NoManualRun(r.(active := NoRun))
      else r
  }

  /** _reconcile_manual_operation. */
  function ReconcileManual(s: State, t: Telemetry): State {
    var u := if AdoptsRun(s, t) then AdoptRun(s, OpOfPage(t.lastPage).value) else s;
    u.(run := RunAfterPoll(u.run, t), log := u.log + [Observed(t)])
  }

  /** What the pause button sends: the pause or the restart of what runs. */
  function PauseCommands(run: RunFlags, arm: Arm, shown: Shown): seq<int> {
    if arm.op.Some? then []
    else match run.active
         case ManualGrind => [if shown.ShowsPaused? then 8020 else 8018]
         case ManualPour => [if shown.ShowsPaused? then 8021 else 8019]
         case _ => if shown.ShowsPaused? then [40524] else if shown.ShowsBusy? then [40518] else []
  }

  function RunAfterPause(run: RunFlags, arm: Arm, shown: Shown): RunFlags {
    if arm.op.Some? || (run.active != ManualGrind && run.active != ManualPour) then run
    else if shown.ShowsPaused? then run.(pauseSeen := true)
    else run.(paused := true, pauseSeen := false)
  }

  function PauseStep(s: State, connected: bool, shown: Shown): State {
    if !connected then s
    else s.(run := RunAfterPause(s.run, s.arm, shown), log := s.log + [PausePressed(PauseCommands(s.run, s.arm, shown))])
  }

  function Step(s: State, e: Event): State {
    match e
    case Press(op, link, asleep) => PressStep(s, op, link, asleep)
    case NotConnected(id) =>
      if id in s.tasks && (s.tasks[id].Arming? || s.tasks[id].Connecting?) then s.(tasks := s.tasks - {id}) else s
    case Prepared(id, job) =>
      if id in s.tasks && s.tasks[id] == Arming(Recipe, None) then s.(tasks := s.tasks[id := Arming(Recipe, Some(job))]) else s
    case ArmLanded(id, returned) =>
      if id in s.tasks && s.tasks[id].Arming? then ArmLandedStep(s, id, returned) else s
    case ArmFailed(id) =>
      if id in s.tasks && s.tasks[id].Arming? then s.(tasks := s.tasks - {id}) else s
    case Linked(id, asleep) =>
      if id in s.tasks && s.tasks[id].Connecting? then Confirm(s, id, s.tasks[id].op, asleep) else s
    case Woken(id) =>
      if id in s.tasks && s.tasks[id].Waking? then Fire(s, id, s.tasks[id].op, true, 1) else s
    case AttemptOver(id, outcome, sleeping) =>
      if id in s.tasks && s.tasks[id].Sending? && CanEnd(s.tasks[id], outcome) then AttemptOverStep(s, id, outcome, sleeping) else s
    case Rested(id) =>
      if id in s.tasks && s.tasks[id].Resting? then Fire(s, id, s.tasks[id].op, s.tasks[id].asleep, s.tasks[id].attempt) else s
    case WaitFailed(id) =>
      if id in s.tasks && (s.tasks[id].Waking? || s.tasks[id].Resting?) then ConfirmOverStep(s, id, false) else s
    case Cancel(_, _) => CancelStep(s, e)
    case Dispatch(signal) => DispatchStep(s, signal)
    case Poll(t) => ReconcileManual(ReconcileArmed(s, t.screen), t)
    case PauseResume(connected, shown) => PauseStep(s, connected, shown)
    case ServiceStart(op) => s.(run := s.run.(active := RunOf(op)), log := s.log + [ServiceStarted(op)])
    case ServiceFail(op) => if op == Recipe then s.(run := s.run.(active := NoRun), log := s.log + [RunFailed]) else s
  }

  function Run(s: State, events: seq<Event>): State
    decreases |events|
  {
    if events == [] then s else Run(Step(s, events[0]), events[1..])
  }

  // ------------------------------------------------------------------
  // Reading the log
  // ------------------------------------------------------------------

  ghost function ScreenBefore(log: seq<Entry>): Option<Page> {
    if log == [] then None
    else if Last(log).Polled? then Last(log).screen
    else ScreenBefore(Front(log))
  }

  /** Whether an entry ends a standing arm of `op`, given the log before it. */
  ghost predicate Ends(log: seq<Entry>, e: Entry, op: Op) {
    match e
    case Cancelled(_) => true
    case ConfirmEnded(_, _) => true
    case Armed(other, _, _, _) => other != op
    case Signalled(EasySlotStarted) => true
    case Signalled(GrindingStarted) => op == Recipe || op == Grind
    case Signalled(BrewingStarted) => op == Recipe || op == Pour
    case Polled(screen) =>
      && screen == Some(HomePage)
      && ((op == Grind && ScreenBefore(log) == Some(GrindPage)) || (op == Pour && ScreenBefore(log) == Some(PourPage)))
    case ManualRun(other) => other == op
    case _ => false
  }

  /** The arm that stands after a log: the last one completed, unless something since ended
      it. */
  ghost function Standing(log: seq<Entry>): Option<Op> {
    if log == [] then None
    else if Last(log).Armed? then Some(Last(log).op)
    else
      var before := Standing(Front(log));
      if before.Some? && Ends(Front(log), Last(log), before.value) then None else before
  }

  /** An entry that makes the coordinator forget armed tea bytes, given the log before it. */
  ghost predicate Drops(log: seq<Entry>, e: Entry) {
    match e
    case Armed(Recipe, _, _, _) => true
    case Cancelled(_) => true
    case ConfirmEnded(Recipe, _) => true
    case Signalled(EasySlotStarted) => true
    case Signalled(GrindingStarted) => Standing(log) == Some(Recipe)
    case Signalled(BrewingStarted) => Standing(log) == Some(Recipe)
    case _ => false
  }

  /** The tea bytes held after a log. */
  ghost function Held(log: seq<Entry>): Option<seq<byte>> {
    if log == [] then None
    else if Last(log).Armed? && Last(log).op == Recipe then Last(log).bytes
    else if Drops(Front(log), Last(log)) then None
    else Held(Front(log))
  }

  /** Whether the job armed last, and not dropped since, is tea. */
  ghost predicate TeaArmed(log: seq<Entry>) {
    if log == [] then false
    else if Last(log).Armed? && Last(log).op == Recipe then Last(log).job.Some? && BrewChain.IsTea(Last(log).job.value.recipe)
    else if Drops(Front(log), Last(log)) then false
    else TeaArmed(Front(log))
  }

  /** Press `id` was a confirm of `op`, made while an arm of `op` stood. */
  ghost predicate ArmedPress(log: seq<Entry>, id: nat, op: Op) {
    log != [] && (|| (Last(log) == Pressed(op, id, true) && Standing(Front(log)) == Some(op))
                  || ArmedPress(Front(log), id, op))
  }

  ghost function StartsOf(log: seq<Entry>, id: nat): nat {
    if log == [] then 0
    else StartsOf(Front(log), id) + (if Last(log).Started? && Last(log).id == id then 1 else 0)
  }

  ghost function Expected(log: seq<Entry>, op: Op): StartCommand {
    match op
    case Grind => GrinderStart
    case Pour => BrewerStart
    case Recipe => if Held(log).Some? then TeaMake(Held(log).value) else RecipeExecute
  }

  ghost predicate Follows(log: seq<Entry>, e: Entry) {
    match e
    case Started(op, id, command) => ArmedPress(log, id, op) && command == Expected(log, op)
    case Pressed(op, _, confirms) => confirms <==> Standing(log) == Some(op)
    case Armed(Recipe, _, job, bytes) => job.Some? && BrewChain.ArmReturns(job.value, bytes)
    case ManualRun(op) => op != Recipe
    case _ => true
  }

  ghost predicate Lawful(log: seq<Entry>) {
    log == [] || (Lawful(Front(log)) && Follows(Front(log), Last(log)))
  }

  // ------------------------------------------------------------------
  // The invariant
  // ------------------------------------------------------------------

  ghost predicate ArmInvariant(arm: Arm, screen: Option<Page>, log: seq<Entry>) {
    && arm.op == Standing(log)
    && arm.payload == Held(log) && arm.isTea == TeaArmed(log)
    && arm.isTea == arm.payload.Some?
    && screen == ScreenBefore(log)
  }

  /** How many starts a task may have sent. */
  function Sends(task: Task): int {
    match task
    case Sending(_, _, attempt, _) => attempt
    case Resting(_, _, attempt) => attempt - 1
    case _ => 0
  }

  ghost predicate TaskInvariant(tasks: map<nat, Task>, nextId: nat, log: seq<Entry>, id: nat) {
    && (id in tasks ==> id < nextId && StartsOf(log, id) <= Sends(tasks[id]) <= 3)
    && (id in tasks && !tasks[id].Arming? ==> ArmedPress(log, id, tasks[id].op))
    && (id in tasks && tasks[id].Resting? ==> tasks[id].attempt <= 3)
    && (id >= nextId ==> StartsOf(log, id) == 0)
    && StartsOf(log, id) <= 3
  }

  ghost predicate TasksInvariant(tasks: map<nat, Task>, nextId: nat, log: seq<Entry>) {
    forall id: nat :: TaskInvariant(tasks, nextId, log, id)
  }

  ghost predicate Invariant(s: State) {
    && Lawful(s.log)
    && ArmInvariant(s.arm, s.lastScreen, s.log)
    && TasksInvariant(s.tasks, s.nextId, s.log)
  }

  /** How the fields must move with an entry for them to keep agreeing with the log. */
  ghost function ArmAfter(arm: Arm, screen: Option<Page>, e: Entry): Arm {
    match e
    case Armed(op, _, job, bytes) =>
      if op == Recipe then Arm(Some(op), job.Some? && BrewChain.IsTea(job.value.recipe), bytes) else arm.(op := Some(op))
    case Cancelled(_) => NO_ARM
    case ConfirmEnded(op, _) => if op == Recipe then NO_ARM else arm.(op := None)
    case Signalled(signal) => ArmAfterSignal(arm, signal)
    case Polled(now) => if LeftForHome(arm, screen, now) then arm.(op := None) else arm
    case ManualRun(op) => if arm.op == Some(op) then arm.(op := None) else arm
    case _ => arm
  }

  ghost function ScreenAfter(screen: Option<Page>, e: Entry): Option<Page> {
    if e.Polled? then e.screen else screen
  }

  lemma ArmGrows(arm: Arm, screen: Option<Page>, log: seq<Entry>, e: Entry)
    requires ArmInvariant(arm, screen, log) && Follows(log, e)
    ensures ArmInvariant(ArmAfter(arm, screen, e), ScreenAfter(screen, e), log + [e])
  {
    Grow(log, e);
  }

  /** An entry that is no start leaves every task's record alone. */
  lemma TasksGrow(tasks: map<nat, Task>, nextId: nat, log: seq<Entry>, e: Entry)
    requires TasksInvariant(tasks, nextId, log) && !e.Started?
    ensures TasksInvariant(tasks, nextId, log + [e])
  {
    Grow(log, e);
    forall id: nat
      ensures TaskInvariant(tasks, nextId, log + [e], id)
    {
      assert TaskInvariant(tasks, nextId, log, id);
    }
  }

  lemma TaskEnds(tasks: map<nat, Task>, nextId: nat, log: seq<Entry>, id: nat)
    requires TasksInvariant(tasks, nextId, log)
    ensures TasksInvariant(tasks - {id}, nextId, log)
  {
    forall j: nat
      ensures TaskInvariant(tasks - {id}, nextId, log, j)
    {
      assert TaskInvariant(tasks, nextId, log, j);
    }
  }

  /** The state that follows an entry, as far as the invariant is concerned. */
  ghost function Noted(s: State, e: Entry): State {
    s.(arm := ArmAfter(s.arm, s.lastScreen, e), lastScreen := ScreenAfter(s.lastScreen, e), log := s.log + [e])
  }

  lemma NotedKeeps(s: State, e: Entry)
    requires Invariant(s) && !e.Started? && Follows(s.log, e)
    ensures Invariant(Noted(s, e))
  {
    Grow(s.log, e);
    ArmGrows(s.arm, s.lastScreen, s.log, e);
    TasksGrow(s.tasks, s.nextId, s.log, e);
  }

  /** A task is replaced by one that may have sent as much. */
  lemma TaskMoves(s: State, id: nat, task: Task, active: Active)
    requires Invariant(s) && id < s.nextId && StartsOf(s.log, id) <= Sends(task) <= 3
    requires task.Resting? ==> task.attempt <= 3
    requires !task.Arming? ==> ArmedPress(s.log, id, task.op)
    ensures Invariant(s.(tasks := s.tasks[id := task], run := s.run.(active := active)))
  {
    var t := s.(tasks := s.tasks[id := task], run := s.run.(active := active));
    forall j: nat
      ensures TaskInvariant(t.tasks, t.nextId, t.log, j)
    {
      assert TaskInvariant(s.tasks, s.nextId, s.log, j);
    }
  }

  lemma FireKeeps(s: State, id: nat, op: Op, asleep: bool, attempt: int)
    requires Invariant(s) && id < s.nextId && ArmedPress(s.log, id, op)
    requires 1 <= attempt <= 3 && StartsOf(s.log, id) < attempt
    ensures Invariant(Fire(s, id, op, asleep, attempt))
  {
    var task := Sending(op, asleep, attempt, Gated(CommandFor(s.arm, op)));
    TaskMoves(s, id, task, s.run.active);
    var u := s.(tasks := s.tasks[id := task]);
    assert u.run.(active := s.run.active) == u.run;
    var e := Started(op, id, CommandFor(s.arm, op).value);
    StartKeeps(u, id, e);
  }

  lemma StartKeeps(s: State, id: nat, e: Entry)
    requires Invariant(s) && id in s.tasks && e.Started? && e.id == id && Follows(s.log, e)
    requires StartsOf(s.log, id) < Sends(s.tasks[id])
    ensures Invariant(s.(log := s.log + [e]))
  {
    Grow(s.log, e);
    ArmGrows(s.arm, s.lastScreen, s.log, e);
    var t := s.(log := s.log + [e]);
    forall j: nat
      ensures TaskInvariant(t.tasks, t.nextId, t.log, j)
    {
      assert TaskInvariant(s.tasks, s.nextId, s.log, j);
    }
  }

  lemma ConfirmKeeps(s: State, id: nat, op: Op, asleep: bool)
    requires Invariant(s) && id < s.nextId && ArmedPress(s.log, id, op) && StartsOf(s.log, id) == 0
    ensures Invariant(Confirm(s, id, op, asleep))
  {
    var noted := s.(log := s.log + [Confirming(op, id)]);
    NotedKeeps(s, Confirming(op, id));
    Grow(s.log, Confirming(op, id));
    if asleep {
      TaskMoves(noted, id, Waking(op), RunOf(op));
    } else {
      FireKeeps(noted.(run := s.run.(active := RunOf(op))), id, op, false, 1);
    }
  }

  lemma PressedKeeps(s: State, op: Op)
    requires Invariant(s)
    ensures var e := Pressed(op, s.nextId, s.arm.op == Some(op));
            var t := s.(nextId := s.nextId + 1, log := s.log + [e]);
            && Invariant(t) && StartsOf(t.log, s.nextId) == 0
            && (s.arm.op == Some(op) ==> ArmedPress(t.log, s.nextId, op))
  {
    var e := Pressed(op, s.nextId, s.arm.op == Some(op));
    var t := s.(nextId := s.nextId + 1, log := s.log + [e]);
    NotedKeeps(s, e);
    Grow(s.log, e);
    assert TaskInvariant(s.tasks, s.nextId, s.log, s.nextId);
    forall j: nat
      ensures TaskInvariant(t.tasks, t.nextId, t.log, j)
    {
      assert TaskInvariant(s.tasks, s.nextId, s.log + [e], j);
    }
  }

  lemma PressKeeps(s: State, op: Op, link: bool, asleep: bool)
    requires Invariant(s)
    ensures Invariant(PressStep(s, op, link, asleep))
  {
    var id, confirms := s.nextId, s.arm.op == Some(op);
    PressedKeeps(s, op);
    var t := s.(nextId := s.nextId + 1, log := s.log + [Pressed(op, id, confirms)]);
    if !confirms {
      TaskMoves(t, id, Arming(op, None), t.run.active);
    } else if !link {
      TaskMoves(t, id, Connecting(op), t.run.active);
    } else {
      ConfirmKeeps(t, id, op, asleep);
    }
  }

  lemma EndWithEntryKeeps(s: State, id: nat, e: Entry)
    requires Invariant(s) && !e.Started? && Follows(s.log, e)
    ensures Invariant(Noted(s.(tasks := s.tasks - {id}), e))
  {
    TaskEnds(s.tasks, s.nextId, s.log, id);
    NotedKeeps(s.(tasks := s.tasks - {id}), e);
  }

  lemma RunIsFree(s: State, run: RunFlags)
    requires Invariant(s)
    ensures Invariant(s.(run := run))
  {
  }

  lemma ConfirmOverKeeps(s: State, id: nat, ok: bool)
    requires Invariant(s) && id in s.tasks
    ensures Invariant(ConfirmOverStep(s, id, ok))
  {
    var e := ConfirmEnded(s.tasks[id].op, id);
    var ended := Noted(s.(tasks := s.tasks - {id}), e);
    var over := ConfirmOverStep(s, id, ok);
    EndWithEntryKeeps(s, id, e);
    if s.tasks[id].op == Recipe && !ok {
      NotedKeeps(ended, RunFailed);
      RunIsFree(Noted(ended, RunFailed), over.run);
      assert over == Noted(ended, RunFailed).(run := over.run);
    } else {
      assert s.log + [e] + [] == s.log + [e];
      assert over == ended;
    }
  }

  lemma ReconcileManualKeeps(u: State, t: Telemetry)
    requires Invariant(u)
    ensures Invariant(ReconcileManual(u, t))
  {
    var v := if AdoptsRun(u, t) then AdoptRun(u, OpOfPage(t.lastPage).value) else u;
    if AdoptsRun(u, t) {
      AdoptKeeps(u, OpOfPage(t.lastPage).value);
    }
    NotedKeeps(v, Observed(t));
    RunIsFree(Noted(v, Observed(t)), RunAfterPoll(v.run, t));
  }

  lemma AdoptKeeps(u: State, op: Op)
    requires Invariant(u) && op != Recipe && (u.arm.op.None? || u.arm.op == Some(op))
    ensures Invariant(AdoptRun(u, op))
  {
    NotedKeeps(u, ManualRun(op));
    RunIsFree(Noted(u, ManualRun(op)), u.run.(active := RunOf(op)));
  }

  lemma PollKeeps(s: State, t: Telemetry)
    requires Invariant(s)
    ensures Invariant(ReconcileManual(ReconcileArmed(s, t.screen), t))
  {
    NotedKeeps(s, Polled(t.screen));
    assert ReconcileArmed(s, t.screen) == Noted(s, Polled(t.screen));
    ReconcileManualKeeps(ReconcileArmed(s, t.screen), t);
  }

  lemma ArmStepKeeps(s: State, e: Event)
    requires Invariant(s) && (e.NotConnected? || e.Prepared? || e.ArmLanded? || e.ArmFailed?)
    ensures Invariant(Step(s, e))
  {
    if e.id in s.tasks {
      var task := s.tasks[e.id];
      assert TaskInvariant(s.tasks, s.nextId, s.log, e.id);
      if e.Prepared? && task == Arming(Recipe, None) {
        TaskMoves(s, e.id, Arming(Recipe, Some(e.job)), s.run.active);
      } else if e.ArmLanded? {
        if task.op != Recipe {
          EndWithEntryKeeps(s, e.id, Armed(task.op, e.id, None, None));
        } else if task.Arming? && task.job.Some? && BrewChain.ArmReturns(task.job.value, e.returned) {
          EndWithEntryKeeps(s, e.id, Armed(Recipe, e.id, task.job, e.returned));
        }
      } else if !e.Prepared? {
        TaskEnds(s.tasks, s.nextId, s.log, e.id);
      }
    }
  }

  lemma ConfirmStepKeeps(s: State, e: Event)
    requires Invariant(s) && (e.Linked? || e.Woken? || e.Rested?)
    ensures Invariant(Step(s, e))
  {
    if e.id in s.tasks {
      var task := s.tasks[e.id];
      assert TaskInvariant(s.tasks, s.nextId, s.log, e.id);
      if e.Linked? && task.Connecting? {
        ConfirmKeeps(s, e.id, task.op, e.asleep);
      } else if e.Woken? && task.Waking? {
        FireKeeps(s, e.id, task.op, true, 1);
      } else if e.Rested? && task.Resting? {
        assert task.attempt >= 1;
        FireKeeps(s, e.id, task.op, task.asleep, task.attempt);
      }
    }
  }

  lemma AttemptOverKeeps(s: State, id: nat, outcome: BrewChain.Outcome, sleeping: bool)
    requires Invariant(s) && id in s.tasks && s.tasks[id].Sending?
    ensures Invariant(AttemptOverStep(s, id, outcome, sleeping))
  {
    var task := s.tasks[id];
    assert TaskInvariant(s.tasks, s.nextId, s.log, id);
    if BrewChain.Again(outcome, task.asleep, sleeping, task.attempt) {
      TaskMoves(s, id, Resting(task.op, task.asleep, task.attempt + 1), s.run.active);
    } else {
      ConfirmOverKeeps(s, id, outcome.Done?);
    }
  }

  predicate OfATask(e: Event) {
    e.NotConnected? || e.Prepared? || e.ArmLanded? || e.ArmFailed? || e.Linked? || e.Woken? || e.AttemptOver? || e.Rested? || e.WaitFailed?
  }

  lemma TaskStepKeeps(s: State, e: Event)
    requires Invariant(s) && OfATask(e)
    ensures Invariant(Step(s, e))
  {
    if e.Linked? || e.Woken? || e.Rested? {
      ConfirmStepKeeps(s, e);
    } else if e.AttemptOver? {
      if e.id in s.tasks && s.tasks[e.id].Sending? {
        AttemptOverKeeps(s, e.id, e.outcome, e.sleeping);
      }
    } else if e.WaitFailed? {
      if e.id in s.tasks {
        ConfirmOverKeeps(s, e.id, false);
      }
    } else {
      ArmStepKeeps(s, e);
    }
  }

  lemma OtherStepKeeps(s: State, e: Event)
    requires Invariant(s) && !OfATask(e) && !e.Press?
    ensures Invariant(Step(s, e))
  {
    if e.Cancel? {
      NotedKeeps(s, CancelEntry(s, e));
    } else if e.Dispatch? {
      NotedKeeps(s, Signalled(e.signal));
    } else if e.Poll? {
      PollKeeps(s, e.telemetry);
    } else if e.ServiceStart? {
      NotedKeeps(s, ServiceStarted(e.op));
    } else if e.ServiceFail? {
      NotedKeeps(s, RunFailed);
    } else {
      NotedKeeps(s, PausePressed(PauseCommands(s.run, s.arm, e.shown)));
    }
  }

  lemma StepKeeps(s: State, e: Event)
    requires Invariant(s)
    ensures Invariant(Step(s, e))
  {
    if OfATask(e) {
      TaskStepKeeps(s, e);
    } else if e.Press? {
      PressKeeps(s, e.op, e.link, e.asleep);
    } else {
      OtherStepKeeps(s, e);
    }
  }

  lemma {:induction false} RunKeeps(s: State, events: seq<Event>)
    requires Invariant(s)
    ensures Invariant(Run(s, events))
    decreases |events|
  {
    if events != [] {
      StepKeeps(s, events[0]);
      RunKeeps(Step(s, events[0]), events[1..]);
    }
  }

  lemma Reachable(events: seq<Event>)
    ensures Invariant(Run(INITIAL, events))
  {
    RunKeeps(INITIAL, events);
  }

  // ------------------------------------------------------------------
  // Arm safety over whole runs
  // ------------------------------------------------------------------

  lemma {:induction false} LawfulAt(log: seq<Entry>, j: nat)
    requires Lawful(log) && j < |log|
    ensures Lawful(log[..j]) && Follows(log[..j], log[j])
    decreases |log|
  {
    if j < |log| - 1 {
      LawfulAt(Front(log), j);
      assert Front(log)[..j] == log[..j];
    }
  }

  lemma {:induction false} FindPress(log: seq<Entry>, id: nat, op: Op) returns (p: nat)
    requires ArmedPress(log, id, op)
    ensures p < |log| && log[p] == Pressed(op, id, true) && Standing(log[..p]) == Some(op)
    decreases |log|
  {
    if Last(log) == Pressed(op, id, true) && Standing(Front(log)) == Some(op) {
      p := |log| - 1;
    } else {
      p := FindPress(Front(log), id, op);
      assert Front(log)[..p] == log[..p];
    }
  }

  /** Nothing in log[from..to] ends a standing arm of `op`. */
  ghost predicate Undisturbed(log: seq<Entry>, from: int, to: int, op: Op)
    requires 0 <= from <= to <= |log|
  {
    forall m :: from <= m < to ==> !Ends(log[..m], log[m], op)
  }

  /** A standing arm goes back to a completed arm of that operation with nothing since then
      that ends it. */
  lemma {:induction false} FindArm(log: seq<Entry>, op: Op) returns (a: nat)
    requires Standing(log) == Some(op)
    ensures a < |log| && log[a].Armed? && log[a].op == op && Undisturbed(log, a + 1, |log|, op)
    ensures forall m :: a < m < |log| ==> !log[m].Armed?
    decreases |log|
  {
    if Last(log).Armed? {
      a := |log| - 1;
    } else {
      a := FindArm(Front(log), op);
      assert forall m :: 0 <= m < |log| - 1 ==> Front(log)[m] == log[m];
      forall m | a + 1 <= m < |log|
        ensures !Ends(log[..m], log[m], op)
      {
        if m < |log| - 1 {
          assert Front(log)[..m] == log[..m] && Front(log)[m] == log[m];
        } else {
          assert log[..m] == Front(log);
        }
      }
    }
  }

  /** Every start command a button press sends goes back to a confirming press of the same
      button, and that press to a completed arm of the same operation with no cancel, no
      completed confirm, no other arm, no clearing start signal and no page-to-home exit
      between the arm and the press. */
  lemma ArmSafety(events: seq<Event>, i: nat) returns (a: nat, p: nat)
    requires i < |Run(INITIAL, events).log| && Run(INITIAL, events).log[i].Started?
    ensures var log := Run(INITIAL, events).log;
            && a < p < i
            && log[a].Armed? && log[a].op == log[i].op
            && log[p] == Pressed(log[i].op, log[i].id, true)
            && Undisturbed(log, a + 1, p, log[i].op)
  {
    Reachable(events);
    var log := Run(INITIAL, events).log;
    var op := log[i].op;
    LawfulAt(log, i);
    p := FindPress(log[..i], log[i].id, op);
    assert log[..i][..p] == log[..p];
    a := FindArm(log[..p], op);
    forall m | a + 1 <= m < p
      ensures !Ends(log[..m], log[m], op)
    {
      assert log[..p][..m] == log[..m] && log[..p][m] == log[m];
    }
  }

  /** One press sends its start command at most three times. */
  lemma AtMostThreeStarts(events: seq<Event>, id: nat)
    ensures StartsOf(Run(INITIAL, events).log, id) <= 3
  {
    Reachable(events);
    var s := Run(INITIAL, events);
    assert TaskInvariant(s.tasks, s.nextId, s.log, id);
  }

  lemma PressAfterCancelArms(s: State, cancel: Event, op: Op, link: bool, asleep: bool)
    requires cancel.Cancel?
    ensures var t := Step(Step(s, cancel), Press(op, link, asleep));
            s.nextId in t.tasks && t.tasks[s.nextId].Arming?
  {
    assert Step(s, cancel) == CancelStep(s, cancel);
    PressArmsOrConfirms(Step(s, cancel), op, link, asleep);
  }

  lemma PressArmsOrConfirms(s: State, op: Op, link: bool, asleep: bool)
    ensures var t := Step(s, Press(op, link, asleep));
            && s.log + [Pressed(op, s.nextId, s.arm.op == Some(op))] <= t.log
            && s.nextId in t.tasks && (!t.tasks[s.nextId].Arming? <==> s.arm.op == Some(op))
  {
  }

  /** A press confirms exactly when an arm of its own operation stands; otherwise it arms. In
      particular the press after a cancel arms, whether the cancel reached the machine or
      not. */
  lemma PressConfirmsIffArmStands(events: seq<Event>, op: Op, link: bool, asleep: bool)
    ensures var s := Run(INITIAL, events);
            var t := Step(s, Press(op, link, asleep));
            && s.log + [Pressed(op, s.nextId, Standing(s.log) == Some(op))] <= t.log
            && (!t.tasks[s.nextId].Arming? <==> Standing(s.log) == Some(op))
    ensures forall connected: bool, runsOn: bool ::
              var s := Step(Run(INITIAL, events), Cancel(connected, runsOn));
              Step(s, Press(op, link, asleep)).tasks[s.nextId].Arming?
  {
    var s := Run(INITIAL, events);
    Reachable(events);
    PressArmsOrConfirms(s, op, link, asleep);
    forall connected: bool, runsOn: bool
      ensures Step(Step(s, Cancel(connected, runsOn)), Press(op, link, asleep)).tasks[s.nextId].Arming?
    {
      PressAfterCancelArms(s, Cancel(connected, runsOn), op, link, asleep);
    }
  }

  // ------------------------------------------------------------------
  // What runs, read off the log
  // ------------------------------------------------------------------

  /** The telemetry shows the grinder, or the brewer, at work with its own page shown last. */
  ghost predicate GrindSeen(t: Telemetry) { t.lastPage == Some(GrindPage) && t.grinderRunning }
  ghost predicate PourSeen(t: Telemetry) { t.lastPage == Some(PourPage) && (t.brewerRunning || t.brewLabel) }

  /** What the coordinator takes to be running after a log. */
  ghost function Running(log: seq<Entry>): Active
    decreases |log|, 0
  {
    if log == [] then NoRun
    else
      var before, armed := Running(Front(log)), Standing(Front(log));
      match Last(log)
      case Confirming(Grind, _) => ManualGrind
      case Confirming(Pour, _) => ManualPour
      case Confirming(Recipe, _) => RecipeRun
      case ServiceStarted(Grind) => ManualGrind
      case ServiceStarted(Pour) => ManualPour
      case ServiceStarted(Recipe) => RecipeRun
      case ManualRun(Grind) => ManualGrind
      case ManualRun(Pour) => ManualPour
      case Cancelled(_) => NoRun
      case RunFailed => NoRun
      case Signalled(EasySlotStarted) => RecipeRun
      case Signalled(GrindingStarted) =>
        if armed == Some(Recipe) then RecipeRun else if armed == Some(Grind) then ManualGrind else before
      case Signalled(BrewingStarted) =>
        if armed == Some(Recipe) then RecipeRun else if armed == Some(Pour) then ManualPour else before
      case Signalled(RunComplete) => NoRun
      case Signalled(RunError) => NoRun
      case Signalled(GrindingComplete) => if before == ManualGrind then NoRun else before
      case Observed(t) => if ManualOver(Front(log), t) then NoRun else before
      case _ => before
  }

  /** A manual run is over once the machine, at work on neither manual page, has left the run's page
      for another, or is back on it unpaused after the run was seen at work. */
  ghost predicate ManualOver(log: seq<Entry>, t: Telemetry)
    decreases |log|, 1
  {
    var page := if Running(log) == ManualGrind then Some(GrindPage) else Some(PourPage);
    && !GrindSeen(t) && !PourSeen(t)
    && (Running(log) == ManualGrind || Running(log) == ManualPour)
    && t.screen.Some?
    && (t.screen != page || (!Paused(log) && SeenAtWork(log)))
  }

  /** The run itself is shown at work. */
  ghost predicate AtWork(log: seq<Entry>, t: Telemetry)
    decreases |log|, 1
  {
    (Running(log) == ManualGrind && GrindSeen(t)) || (Running(log) == ManualPour && PourSeen(t))
  }

  /** Nothing manual runs any more after this look. */
  ghost predicate Clears(log: seq<Entry>, t: Telemetry)
    decreases |log|, 2
  {
    && !GrindSeen(t) && !PourSeen(t)
    && ((Running(log) != ManualGrind && Running(log) != ManualPour) || ManualOver(log, t))
  }

  /** A manual run has been shown at work. */
  ghost predicate SeenAtWork(log: seq<Entry>)
    decreases |log|, 0
  {
    log != [] &&
      match Last(log)
      case Observed(t) => AtWork(Front(log), t) || (SeenAtWork(Front(log)) && !Clears(Front(log), t))
      case Cancelled(_) => false
      case Signalled(RunComplete) => false
      case Signalled(RunError) => false
      case _ => SeenAtWork(Front(log))
  }

  /** A manual run was told to pause, and has not been shown at work again after it was shown paused. */
  ghost predicate Paused(log: seq<Entry>)
    decreases |log|, 0
  {
    log != [] &&
      match Last(log)
      case PausePressed(sent) => sent == [8018] || sent == [8019] || Paused(Front(log))
      case Observed(t) => Paused(Front(log)) && !Clears(Front(log), t) && !(AtWork(Front(log), t) && ShownPaused(Front(log)))
      case Cancelled(_) => false
      case Signalled(RunComplete) => false
      case Signalled(RunError) => false
      case _ => Paused(Front(log))
  }

  /** Since it was told to pause, the machine has shown its page unworked, or it was told to go on. */
  ghost predicate ShownPaused(log: seq<Entry>)
    decreases |log|, 0
  {
    log != [] &&
      match Last(log)
      case PausePressed(sent) =>
        if sent == [8018] || sent == [8019] then false
        else sent == [8020] || sent == [8021] || ShownPaused(Front(log))
      case Observed(t) =>
        var log := Front(log);
        if GrindSeen(t) || PourSeen(t) then ShownPaused(log) && !AtWork(log, t)
        else !Clears(log, t) && (ShownPaused(log) || (Paused(log) && t.screen.Some?))
      case Cancelled(_) => false
      case Signalled(RunComplete) => false
      case Signalled(RunError) => false
      case _ => ShownPaused(Front(log))
  }

  /** The machine asks to start a pod, and nothing has answered it. */
  ghost predicate PodAsked(log: seq<Entry>) {
    log != [] &&
      match Last(log)
      case Signalled(PodDetected) => true
      case Signalled(GrindingStarted) => false
      case Signalled(BrewingStarted) => false
      case Cancelled(_) => false
      case _ => PodAsked(Front(log))
  }

  ghost predicate RunInvariant(run: RunFlags, log: seq<Entry>) {
    && run.active == Running(log)
    && run.podPrompt == PodAsked(log)
    && run.runSeen == SeenAtWork(log) && run.paused == Paused(log) && run.pauseSeen == ShownPaused(log)
  }

  /** How the flags move with an entry. */
  ghost function RunAfter(run: RunFlags, arm: Arm, e: Entry): RunFlags {
    match e
    case Confirming(op, _) => run.(active := RunOf(op))
    case ServiceStarted(op) => run.(active := RunOf(op))
    case ManualRun(op) => run.(active := RunOf(op))
    case Cancelled(_) => NoManualRun(run.(active := NoRun, podPrompt := false))
    case RunFailed => run.(active := NoRun)
    case Signalled(signal) => RunAfterSignal(run, arm, signal)
    case Observed(t) => RunAfterPoll(run, t)
    case PausePressed(sent) =>
      if sent == [8018] || sent == [8019] then run.(paused := true, pauseSeen := false)
      else if sent == [8020] || sent == [8021] then run.(pauseSeen := true) else run
    case _ => run
  }

  lemma SignalGrows(run: RunFlags, arm: Arm, log: seq<Entry>, signal: Signal)
    requires RunInvariant(run, log) && arm.op == Standing(log)
    ensures RunInvariant(RunAfterSignal(run, arm, signal), log + [Signalled(signal)])
  {
    Grow(log, Signalled(signal));
  }

  lemma PauseGrows(run: RunFlags, arm: Arm, log: seq<Entry>, sent: seq<int>)
    requires RunInvariant(run, log)
    ensures RunInvariant(RunAfter(run, arm, PausePressed(sent)), log + [PausePressed(sent)])
  {
    Grow(log, PausePressed(sent));
  }

  lemma OtherGrows(run: RunFlags, arm: Arm, log: seq<Entry>, e: Entry)
    requires RunInvariant(run, log) && !e.Observed? && !e.Signalled? && !e.PausePressed? && (e.ManualRun? ==> e.op != Recipe)
    ensures RunInvariant(RunAfter(run, arm, e), log + [e])
  {
    Grow(log, e);
  }

  lemma ObservedGrows(run: RunFlags, log: seq<Entry>, t: Telemetry)
    requires RunInvariant(run, log)
    ensures RunInvariant(RunAfterPoll(run, t), log + [Observed(t)])
  {
    if GrindSeen(t) || PourSeen(t) {
      WorkingGrows(run, log, t);
    } else {
      RestingGrows(run, log, t);
    }
  }

  lemma WorkingGrows(run: RunFlags, log: seq<Entry>, t: Telemetry)
    requires RunInvariant(run, log) && (GrindSeen(t) || PourSeen(t))
    ensures RunInvariant(RunAfterPoll(run, t), log + [Observed(t)])
  {
    Grow(log, Observed(t));
    assert !Clears(log, t) && !ManualOver(log, t);
  }

  lemma RestingGrows(run: RunFlags, log: seq<Entry>, t: Telemetry)
    requires RunInvariant(run, log) && !GrindSeen(t) && !PourSeen(t)
    ensures RunInvariant(RunAfterPoll(run, t), log + [Observed(t)])
  {
    Grow(log, Observed(t));
    assert !AtWork(log, t);
    assert Clears(log, t) <==> (Running(log) != ManualGrind && Running(log) != ManualPour) || ManualOver(log, t);
  }

  /** What the flags must agree with: the log, in a state that keeps its invariant. */
  ghost predicate Told(s: State) { Invariant(s) && RunInvariant(s.run, s.log) }

  /** Tasks and starts say nothing about what runs. */
  lemma StartTells(run: RunFlags, log: seq<Entry>, e: Entry)
    requires RunInvariant(run, log) && (e.Started? || e.Pressed? || e.Armed? || e.ConfirmEnded? || e.Polled?)
    ensures RunInvariant(run, log + [e])
  {
    Grow(log, e);
  }

  lemma FireTells(s: State, id: nat, op: Op, asleep: bool, attempt: int)
    requires RunInvariant(s.run, s.log)
    ensures var t := Fire(s, id, op, asleep, attempt); RunInvariant(t.run, t.log)
  {
    var command := CommandFor(s.arm, op);
    if command.Some? {
      StartTells(s.run, s.log, Started(op, id, command.value));
    }
  }

  lemma ConfirmTells(s: State, id: nat, op: Op, asleep: bool)
    requires RunInvariant(s.run, s.log)
    ensures var t := Confirm(s, id, op, asleep); RunInvariant(t.run, t.log)
  {
    OtherGrows(s.run, s.arm, s.log, Confirming(op, id));
    if !asleep {
      FireTells(s.(run := s.run.(active := RunOf(op)), log := s.log + [Confirming(op, id)]), id, op, false, 1);
    }
  }

  lemma PressTells(s: State, op: Op, link: bool, asleep: bool)
    requires RunInvariant(s.run, s.log)
    ensures var t := PressStep(s, op, link, asleep); RunInvariant(t.run, t.log)
  {
    var e := Pressed(op, s.nextId, s.arm.op == Some(op));
    StartTells(s.run, s.log, e);
    ConfirmTells(s.(nextId := s.nextId + 1, log := s.log + [e]), s.nextId, op, asleep);
  }

  lemma ConfirmOverTells(s: State, id: nat, ok: bool)
    requires RunInvariant(s.run, s.log) && id in s.tasks
    ensures var t := ConfirmOverStep(s, id, ok); RunInvariant(t.run, t.log)
  {
    var e := ConfirmEnded(s.tasks[id].op, id);
    StartTells(s.run, s.log, e);
    OtherGrows(s.run, s.arm, s.log + [e], RunFailed);
    assert s.log + [e] + [] == s.log + [e];
  }

  lemma PollTells(s: State, t: Telemetry)
    requires Told(s)
    ensures var u := ReconcileManual(ReconcileArmed(s, t.screen), t); RunInvariant(u.run, u.log)
  {
    StartTells(s.run, s.log, Polled(t.screen));
    ManualTells(ReconcileArmed(s, t.screen), t);
  }

  lemma AdoptTells(u: State, op: Op)
    requires RunInvariant(u.run, u.log) && op != Recipe
    ensures RunInvariant(AdoptRun(u, op).run, AdoptRun(u, op).log)
  {
    OtherGrows(u.run, u.arm, u.log, ManualRun(op));
  }

  lemma ManualTells(u: State, t: Telemetry)
    requires RunInvariant(u.run, u.log)
    ensures RunInvariant(ReconcileManual(u, t).run, ReconcileManual(u, t).log)
  {
    if AdoptsRun(u, t) {
      AdoptTells(u, OpOfPage(t.lastPage).value);
    }
    var v := if AdoptsRun(u, t) then AdoptRun(u, OpOfPage(t.lastPage).value) else u;
    ObservedGrows(v.run, v.log, t);
  }

  lemma PauseTells(s: State, connected: bool, shown: Shown)
    requires RunInvariant(s.run, s.log)
    ensures var t := PauseStep(s, connected, shown); RunInvariant(t.run, t.log)
  {
    PauseMoves(s.run, s.arm, shown);
    PauseGrows(s.run, s.arm, s.log, PauseCommands(s.run, s.arm, shown));
  }

  /** The flags move as the commands sent say. */
  lemma PauseMoves(run: RunFlags, arm: Arm, shown: Shown)
    ensures RunAfter(run, arm, PausePressed(PauseCommands(run, arm, shown))) == RunAfterPause(run, arm, shown)
  {
    var sent := PauseCommands(run, arm, shown);
    if sent != [] {
      assert sent == [sent[0]];
    }
  }

  lemma ArmTaskTells(s: State, e: Event)
    requires RunInvariant(s.run, s.log) && (e.NotConnected? || e.Prepared? || e.ArmLanded? || e.ArmFailed?)
    ensures RunInvariant(Step(s, e).run, Step(s, e).log)
  {
    if e.ArmLanded? && e.id in s.tasks && s.tasks[e.id].Arming? {
      var task := s.tasks[e.id];
      StartTells(s.run, s.log, if task.op != Recipe then Armed(task.op, e.id, None, None) else Armed(Recipe, e.id, task.job, e.returned));
    }
  }

  lemma StartTaskTells(s: State, e: Event)
    requires RunInvariant(s.run, s.log) && (e.Linked? || e.Woken? || e.Rested?)
    ensures RunInvariant(Step(s, e).run, Step(s, e).log)
  {
    if e.id in s.tasks {
      var task := s.tasks[e.id];
      if e.Linked? {
        ConfirmTells(s, e.id, task.op, e.asleep);
      } else if e.Woken? {
        FireTells(s, e.id, task.op, true, 1);
      } else if task.Resting? {
        FireTells(s, e.id, task.op, task.asleep, task.attempt);
      }
    }
  }

  lemma EndTaskTells(s: State, e: Event)
    requires RunInvariant(s.run, s.log) && (e.AttemptOver? || e.WaitFailed?)
    ensures RunInvariant(Step(s, e).run, Step(s, e).log)
  {
    if e.id in s.tasks {
      ConfirmOverTells(s, e.id, e.AttemptOver? && e.outcome.Done?);
    }
  }

  lemma TaskStepTells(s: State, e: Event)
    requires RunInvariant(s.run, s.log) && OfATask(e)
    ensures RunInvariant(Step(s, e).run, Step(s, e).log)
  {
    if e.Linked? || e.Woken? || e.Rested? {
      StartTaskTells(s, e);
    } else if e.AttemptOver? || e.WaitFailed? {
      EndTaskTells(s, e);
    } else {
      ArmTaskTells(s, e);
    }
  }

  lemma PressStepTells(s: State, e: Event)
    requires RunInvariant(s.run, s.log) && e.Press?
    ensures RunInvariant(Step(s, e).run, Step(s, e).log)
  {
    PressTells(s, e.op, e.link, e.asleep);
  }

  lemma MachineStepTells(s: State, e: Event)
    requires Told(s) && (e.Dispatch? || e.Poll?)
    ensures RunInvariant(Step(s, e).run, Step(s, e).log)
  {
    if e.Dispatch? {
      SignalGrows(s.run, s.arm, s.log, e.signal);
    } else {
      PollTells(s, e.telemetry);
    }
  }

  lemma CancelStepTells(s: State, e: Event)
    requires RunInvariant(s.run, s.log) && e.Cancel?
    ensures RunInvariant(Step(s, e).run, Step(s, e).log)
  {
    OtherGrows(s.run, s.arm, s.log, CancelEntry(s, e));
  }

  lemma PauseStepTells(s: State, e: Event)
    requires RunInvariant(s.run, s.log) && e.PauseResume?
    ensures RunInvariant(Step(s, e).run, Step(s, e).log)
  {
    PauseTells(s, e.connected, e.shown);
  }

  lemma ServiceStartTells(s: State, e: Event)
    requires RunInvariant(s.run, s.log) && e.ServiceStart?
    ensures RunInvariant(Step(s, e).run, Step(s, e).log)
  {
    OtherGrows(s.run, s.arm, s.log, ServiceStarted(e.op));
  }

  lemma ServiceFailTells(s: State, e: Event)
    requires RunInvariant(s.run, s.log) && e.ServiceFail?
    ensures RunInvariant(Step(s, e).run, Step(s, e).log)
  {
    OtherGrows(s.run, s.arm, s.log, RunFailed);
  }

  lemma StepTells(s: State, e: Event)
    requires Told(s)
    ensures Told(Step(s, e))
  {
    StepKeeps(s, e);
    if OfATask(e) {
      TaskStepTells(s, e);
    } else if e.Press? {
      PressStepTells(s, e);
    } else if e.Dispatch? || e.Poll? {
      MachineStepTells(s, e);
    } else if e.Cancel? {
      CancelStepTells(s, e);
    } else if e.PauseResume? {
      PauseStepTells(s, e);
    } else if e.ServiceStart? {
      ServiceStartTells(s, e);
    } else {
      ServiceFailTells(s, e);
    }
  }

  lemma {:induction false} RunTells(s: State, events: seq<Event>)
    requires Told(s)
    ensures Told(Run(s, events))
    decreases |events|
  {
    if events != [] {
      StepTells(s, events[0]);
      RunTells(Step(s, events[0]), events[1..]);
    }
  }

  /** In every reachable state the bookkeeping of runs is what the log says: what runs, whether the
      machine asks to start a pod, and of a manual run whether it was seen at work, is paused,
      and was shown paused. */
  lemma RunsTellTheLog(events: seq<Event>)
    ensures var s := Run(INITIAL, events);
            && s.run.active == Running(s.log) && s.run.podPrompt == PodAsked(s.log)
            && s.run.runSeen == SeenAtWork(s.log) && s.run.paused == Paused(s.log) && s.run.pauseSeen == ShownPaused(s.log)
  {
    Reachable([]);
    assert Run(INITIAL, []) == INITIAL;
    RunTells(INITIAL, events);
  }

  // ------------------------------------------------------------------
  // Every event is noted
  // ------------------------------------------------------------------

  /** The attempt is repeated: the machine slept at the first attempt of a timed-out confirm or
      sleeps now, or it sleeps after a success; and it was not the third. */
  ghost predicate Repeats(task: Task, outcome: BrewChain.Outcome, sleeping: bool)
    requires task.Sending?
  {
    task.attempt < 3 && ((outcome.TimedOut? && (task.asleep || sleeping)) || (outcome.Done? && sleeping))
  }

  /** A manual run that the telemetry shows and nothing else claims. */
  ghost function Adopted(log: seq<Entry>, t: Telemetry): Option<Op> {
    var armed := Standing(log + [Polled(t.screen)]);
    if Running(log) != NoRun then None
    else if GrindSeen(t) && (armed.None? || armed == Some(Grind)) then Some(Grind)
    else if PourSeen(t) && (armed.None? || armed == Some(Pour)) then Some(Pour)
    else None
  }

  /** What an event puts in the log, with the start that what is held calls for; what a cancel and
      the pause button send is left to them. */
  ghost predicate Notes(s: State, e: Event, added: seq<Entry>) {
    match e
    case Press(op, link, asleep) =>
      var confirms := Standing(s.log) == Some(op);
      added == [Pressed(op, s.nextId, confirms)]
               + (if confirms && link then [Confirming(op, s.nextId)] else [])
               + (if confirms && link && !asleep then [Started(op, s.nextId, Expected(s.log, op))] else [])
    case ArmLanded(id, returned) =>
      added == if id !in s.tasks || !s.tasks[id].Arming? then []
               else if s.tasks[id].op != Recipe then [Armed(s.tasks[id].op, id, None, None)]
               else if s.tasks[id].job.Some? && BrewChain.ArmReturns(s.tasks[id].job.value, returned)
               then [Armed(Recipe, id, s.tasks[id].job, returned)] else []
    case Linked(id, asleep) =>
      added == if id !in s.tasks || !s.tasks[id].Connecting? then []
               else [Confirming(s.tasks[id].op, id)]
                    + if asleep then [] else [Started(s.tasks[id].op, id, Expected(s.log, s.tasks[id].op))]
    case Woken(id) =>
      added == if id in s.tasks && s.tasks[id].Waking? then [Started(s.tasks[id].op, id, Expected(s.log, s.tasks[id].op))] else []
    case Rested(id) =>
      added == if id in s.tasks && s.tasks[id].Resting? then [Started(s.tasks[id].op, id, Expected(s.log, s.tasks[id].op))] else []
    case AttemptOver(id, outcome, sleeping) =>
      added == if id !in s.tasks || !s.tasks[id].Sending? || (outcome.TimedOut? && !s.tasks[id].gated)
                  || Repeats(s.tasks[id], outcome, sleeping) then []
               else [ConfirmEnded(s.tasks[id].op, id)] + if s.tasks[id].op == Recipe && !outcome.Done? then [RunFailed] else []
    case WaitFailed(id) =>
      added == if id !in s.tasks || !(s.tasks[id].Waking? || s.tasks[id].Resting?) then []
               else [ConfirmEnded(s.tasks[id].op, id)] + if s.tasks[id].op == Recipe then [RunFailed] else []
    case Cancel(_, _) => |added| == 1 && added[0].Cancelled?
    case Dispatch(signal) => added == [Signalled(signal)]
    case Poll(t) =>
      added == [Polled(t.screen)]
               + (if Adopted(s.log, t).Some? then [ManualRun(Adopted(s.log, t).value)] else []) + [Observed(t)]
    case PauseResume(connected, _) => if connected then |added| == 1 && added[0].PausePressed? else added == []
    case ServiceStart(op) => added == [ServiceStarted(op)]
    case ServiceFail(op) => added == if op == Recipe then [RunFailed] else []
    case _ => added == []
  }

  lemma ExpectedCommand(s: State, op: Op)
    requires Invariant(s)
    ensures CommandFor(s.arm, op) == Some(Expected(s.log, op))
  {
  }

  lemma ArmEventIsNoted(s: State, e: Event)
    requires Told(s) && (e.NotConnected? || e.Prepared? || e.ArmLanded? || e.ArmFailed?)
    ensures s.log <= Step(s, e).log && Notes(s, e, Step(s, e).log[|s.log|..])
  {
  }

  lemma StartEventIsNoted(s: State, e: Event)
    requires Told(s) && (e.Linked? || e.Woken? || e.Rested?)
    ensures s.log <= Step(s, e).log && Notes(s, e, Step(s, e).log[|s.log|..])
  {
    if e.id in s.tasks {
      ExpectedCommand(s, s.tasks[e.id].op);
    }
  }

  lemma EndEventIsNoted(s: State, e: Event)
    requires Told(s) && (e.AttemptOver? || e.WaitFailed?)
    ensures s.log <= Step(s, e).log && Notes(s, e, Step(s, e).log[|s.log|..])
  {
  }

  lemma TaskEventIsNoted(s: State, e: Event)
    requires Told(s) && OfATask(e)
    ensures s.log <= Step(s, e).log && Notes(s, e, Step(s, e).log[|s.log|..])
  {
    if e.Linked? || e.Woken? || e.Rested? {
      StartEventIsNoted(s, e);
    } else if e.AttemptOver? || e.WaitFailed? {
      EndEventIsNoted(s, e);
    } else {
      ArmEventIsNoted(s, e);
    }
  }

  lemma PressIsNoted(s: State, e: Event)
    requires Told(s) && e.Press?
    ensures s.log <= Step(s, e).log && Notes(s, e, Step(s, e).log[|s.log|..])
  {
    ExpectedCommand(s, e.op);
  }

  lemma PollIsNoted(s: State, e: Event)
    requires Told(s) && e.Poll?
    ensures s.log <= Step(s, e).log && Notes(s, e, Step(s, e).log[|s.log|..])
  {
    var t := e.telemetry;
    var u := ReconcileArmed(s, t.screen);
    NotedKeeps(s, Polled(t.screen));
    assert u == Noted(s, Polled(t.screen));
    AdoptedIs(u, s.log, t);
  }

  lemma AdoptedIs(u: State, log: seq<Entry>, t: Telemetry)
    requires u.arm.op == Standing(log + [Polled(t.screen)]) && u.run.active == Running(log)
    ensures AdoptsRun(u, t) <==> Adopted(log, t).Some?
    ensures Adopted(log, t).Some? ==> OpOfPage(t.lastPage) == Adopted(log, t)
  {
  }

  lemma OtherEventIsNoted(s: State, e: Event)
    requires !OfATask(e) && !e.Press? && !e.Poll?
    ensures s.log <= Step(s, e).log && Notes(s, e, Step(s, e).log[|s.log|..])
  {
  }

  /** In every reachable state every event leaves exactly its entries in the log, so what the log is
      read for above and below is what happened. */
  lemma EveryEventIsNoted(events: seq<Event>, e: Event)
    ensures var s := Run(INITIAL, events);
            s.log <= Step(s, e).log && Notes(s, e, Step(s, e).log[|s.log|..])
  {
    Reachable([]);
    assert Run(INITIAL, []) == INITIAL;
    RunTells(INITIAL, events);
    var s := Run(INITIAL, events);
    if OfATask(e) {
      TaskEventIsNoted(s, e);
    } else if e.Press? {
      PressIsNoted(s, e);
    } else if e.Poll? {
      PollIsNoted(s, e);
    } else {
      OtherEventIsNoted(s, e);
    }
  }

  /** What an event makes of the task it belongs to; `None` ends it. */
  ghost function NextTask(task: Task, e: Event): Option<Task> {
    match e
    case NotConnected(_) => if task.Arming? || task.Connecting? then None else Some(task)
    case Prepared(_, job) => if task == Arming(Recipe, None) then Some(Arming(Recipe, Some(job))) else Some(task)
    case ArmLanded(_, returned) =>
      if task.Arming? && (task.op != Recipe || (task.job.Some? && BrewChain.ArmReturns(task.job.value, returned))) then None
      else Some(task)
    case ArmFailed(_) => if task.Arming? then None else Some(task)
    case WaitFailed(_) => if task.Waking? || task.Resting? then None else Some(task)
    case AttemptOver(_, outcome, sleeping) =>
      if !task.Sending? || (outcome.TimedOut? && !task.gated) then Some(task)
      else if Repeats(task, outcome, sleeping) then Some(Resting(task.op, task.asleep, task.attempt + 1))
      else None
    case _ => Some(task)
  }

  /** The attempt that a confirm goes on with: the first, or the one it rested for. */
  ghost predicate GoesOn(task: Task, e: Event) {
    (e.Linked? && task.Connecting? && !e.asleep) || (e.Woken? && task.Waking?) || (e.Rested? && task.Resting?)
  }

  /** The task after its event: an attempt waits for an echo exactly if it sends 4512, and counts
      from one. */
  ghost predicate Followed(s: State, t: State, e: Event, id: nat)
    requires id in s.tasks
  {
    var task := s.tasks[id];
    if GoesOn(task, e) then
      && id in t.tasks
      && t.tasks[id] == Sending(task.op, if e.Rested? then task.asleep else e.Woken?, if e.Rested? then task.attempt else 1,
                                Expected(s.log, task.op).TeaMake?)
    else if e.Linked? && task.Connecting? then id in t.tasks && t.tasks[id] == Waking(task.op)
    else if NextTask(task, e).Some? then id in t.tasks && t.tasks[id] == NextTask(task, e).value
    else id !in t.tasks
  }

  lemma StartEventFollowed(s: State, e: Event)
    requires Invariant(s) && (e.Linked? || e.Woken? || e.Rested?) && e.id in s.tasks
    ensures Followed(s, Step(s, e), e, e.id)
  {
    ExpectedCommand(s, s.tasks[e.id].op);
  }

  lemma OtherEventFollowed(s: State, e: Event)
    requires OfATask(e) && !e.Linked? && !e.Woken? && !e.Rested? && e.id in s.tasks
    ensures Followed(s, Step(s, e), e, e.id)
  {
  }

  lemma OwnTaskOnly(s: State, e: Event, id: nat)
    requires OfATask(e)
    ensures var t := Step(s, e);
            && (id != e.id ==> (id in t.tasks <==> id in s.tasks) && (id in s.tasks ==> t.tasks[id] == s.tasks[id]))
            && (id !in s.tasks ==> id !in t.tasks) && t.nextId == s.nextId
  {
  }

  /** In every reachable state every event moves its own task, as follows, and no other. */
  lemma TasksFollow(events: seq<Event>, e: Event, id: nat)
    requires OfATask(e)
    ensures var s := Run(INITIAL, events);
            var t := Step(s, e);
            && (id != e.id ==> (id in t.tasks <==> id in s.tasks) && (id in s.tasks ==> t.tasks[id] == s.tasks[id]))
            && (id !in s.tasks ==> id !in t.tasks) && t.nextId == s.nextId
            && (id == e.id && id in s.tasks ==> Followed(s, t, e, id))
  {
    Reachable(events);
    var s := Run(INITIAL, events);
    OwnTaskOnly(s, e, id);
    if id == e.id && id in s.tasks {
      if e.Linked? || e.Woken? || e.Rested? {
        StartEventFollowed(s, e);
      } else {
        OtherEventFollowed(s, e);
      }
    }
  }

  lemma PressOpensATask(events: seq<Event>, op: Op, link: bool, asleep: bool)
    ensures var s := Run(INITIAL, events);
            var t := Step(s, Press(op, link, asleep));
            && t.nextId == s.nextId + 1 && s.nextId !in s.tasks
            && t.tasks == s.tasks[s.nextId :=
                 if Standing(s.log) != Some(op) then Arming(op, None)
                 else if !link then Connecting(op)
                 else if asleep then Waking(op)
                 else Sending(op, false, 1, Expected(s.log, op).TeaMake?)]
  {
    Reachable(events);
    var s := Run(INITIAL, events);
    ExpectedCommand(s, op);
    assert TaskInvariant(s.tasks, s.nextId, s.log, s.nextId);
  }

  /** What is no press and no task's event leaves the tasks alone. */
  lemma OthersLeaveTasks(s: State, e: Event)
    requires !OfATask(e) && !e.Press?
    ensures Step(s, e).tasks == s.tasks && Step(s, e).nextId == s.nextId
  {
  }

  // ------------------------------------------------------------------
  // What a cancel ends
  // ------------------------------------------------------------------

  /** What can be going on at the machine: a motor, the brew of a recipe, or a page that waits for
      its start. */
  datatype Activity = Grinder | Brewer | Brewing | GrindScreen | PourScreen | StartDialog

  /** What a command ends, by its number. */
  ghost function EndedBy(command: int): Option<Activity> {
    if command == 3505 then Some(Grinder)
    else if command == 4507 then Some(Brewer)
    else if command == 40519 then Some(Brewing)
    else if command == 8012 then Some(GrindScreen)
    else if command == 8013 then Some(PourScreen)
    else if command == 8017 then Some(StartDialog)
    else None
  }

  /** What is left of what is going on once these commands have arrived. */
  ghost function Left(going: set<Activity>, sent: seq<int>): set<Activity> {
    if sent == [] then going
    else
      var rest := Left(going, sent[..|sent| - 1]);
      if EndedBy(Last(sent)).Some? then rest - {EndedBy(Last(sent)).value} else rest
  }

  /** What a cancel has to end: the pages that wait for a start; where there are none, the run, with
      the page a manual run stands on; and where the coordinator knows of none, a brew. */
  ghost function ToEnd(armed: Option<Op>, podAsked: bool, running: Active): set<Activity> {
    var waiting := (if armed == Some(Grind) then {GrindScreen} else if armed == Some(Pour) then {PourScreen}
                    else if armed == Some(Recipe) then {StartDialog} else {})
                   + (if podAsked then {StartDialog} else {});
    if waiting != {} then waiting
    else if running == ManualGrind then {Grinder, GrindScreen}
    else if running == ManualPour then {Brewer, PourScreen}
    else {Brewing}
  }

  /** A page is not quit before its motor has been told to stop. */
  ghost predicate StopsFirst(sent: seq<int>) {
    forall i, j :: 0 <= i < |sent| && 0 <= j < |sent| ==>
      ((EndedBy(sent[i]) == Some(Grinder) && EndedBy(sent[j]) == Some(GrindScreen))
       || (EndedBy(sent[i]) == Some(Brewer) && EndedBy(sent[j]) == Some(PourScreen))) ==> i < j
  }

  ghost predicate OnlyFor(targets: set<Activity>, sent: seq<int>) {
    forall i :: 0 <= i < |sent| ==> EndedBy(sent[i]).Some? && EndedBy(sent[i]).value in targets
  }

  lemma {:induction false} LeftAre(going: set<Activity>, sent: seq<int>)
    ensures forall a :: a in Left(going, sent) <==> a in going && forall i :: 0 <= i < |sent| ==> EndedBy(sent[i]) != Some(a)
  {
    if sent != [] {
      LeftAre(going, sent[..|sent| - 1]);
    }
  }

  /** No command twice, but a stop first once more where a motor runs on. */
  ghost predicate OnceEach(targets: set<Activity>, sent: seq<int>, runsOn: bool) {
    var again := runsOn && (Grinder in targets || Brewer in targets);
    && (again ==> |sent| >= 2 && sent[0] == sent[1])
    && forall i, j :: (if again then 1 else 0) <= i < j < |sent| ==> sent[i] != sent[j]
  }

  ghost predicate EndsExactly(targets: set<Activity>, sent: seq<int>, runsOn: bool) {
    && (forall a :: a in targets ==> exists i :: 0 <= i < |sent| && EndedBy(sent[i]) == Some(a))
    && OnlyFor(targets, sent) && StopsFirst(sent) && OnceEach(targets, sent, runsOn)
  }

  lemma EndsOne(a: Activity, command: int)
    requires EndedBy(command) == Some(a) && a != Grinder && a != Brewer
    ensures forall runsOn :: EndsExactly({a}, [command], runsOn)
  {
    assert EndedBy([command][0]) == Some(a);
  }

  lemma EndsTwo(a: Activity, b: Activity, first: int, second: int)
    requires EndedBy(first) == Some(a) && EndedBy(second) == Some(b) && a != b && b != Grinder && b != Brewer
    ensures EndsExactly({a, b}, [first, second], false)
    ensures a != Grinder && a != Brewer ==> EndsExactly({a, b}, [first, second], true)
    ensures a == Grinder || a == Brewer ==> EndsExactly({a, b}, [first, first, second], true)
  {
    assert EndedBy([first, second][0]) == Some(a) && EndedBy([first, second][1]) == Some(b);
    assert EndedBy([first, first, second][0]) == Some(a) && EndedBy([first, first, second][2]) == Some(b);
  }

  lemma WaitingEndsExactly(s: State, runsOn: bool)
    requires s.arm.op.Some? || s.run.podPrompt
    ensures EndsExactly(ToEnd(s.arm.op, s.run.podPrompt, s.run.active), QuitCommands(s, runsOn), runsOn)
  {
    EndsOne(GrindScreen, 8012);
    EndsOne(PourScreen, 8013);
    EndsOne(StartDialog, 8017);
    EndsTwo(GrindScreen, StartDialog, 8012, 8017);
    EndsTwo(PourScreen, StartDialog, 8013, 8017);
    var targets, sent := ToEnd(s.arm.op, s.run.podPrompt, s.run.active), QuitCommands(s, runsOn);
    if s.arm.op == Some(Grind) {
      assert targets == if s.run.podPrompt then {GrindScreen, StartDialog} else {GrindScreen};
      assert sent == if s.run.podPrompt then [8012, 8017] else [8012];
    } else if s.arm.op == Some(Pour) {
      assert targets == if s.run.podPrompt then {PourScreen, StartDialog} else {PourScreen};
      assert sent == if s.run.podPrompt then [8013, 8017] else [8013];
    } else {
      assert targets == {StartDialog} && sent == [8017];
    }
  }

  lemma RunningEndsExactly(s: State, runsOn: bool)
    requires s.arm.op.None? && !s.run.podPrompt
    ensures EndsExactly(ToEnd(s.arm.op, s.run.podPrompt, s.run.active), QuitCommands(s, runsOn), runsOn)
  {
    EndsOne(Brewing, 40519);
    EndsTwo(Grinder, GrindScreen, 3505, 8012);
    EndsTwo(Brewer, PourScreen, 4507, 8013);
    var targets, sent := ToEnd(s.arm.op, s.run.podPrompt, s.run.active), QuitCommands(s, runsOn);
    if s.run.active == ManualGrind {
      assert targets == {Grinder, GrindScreen} && sent == if runsOn then [3505, 3505, 8012] else [3505, 8012];
    } else if s.run.active == ManualPour {
      assert targets == {Brewer, PourScreen} && sent == if runsOn then [4507, 4507, 8013] else [4507, 8013];
    } else {
      assert targets == {Brewing} && sent == [40519];
    }
  }

  lemma LeftIsTheRest(going: set<Activity>, targets: set<Activity>, sent: seq<int>, runsOn: bool)
    requires EndsExactly(targets, sent, runsOn)
    ensures Left(going, sent) == going - targets
  {
    LeftAre(going, sent);
  }

  lemma CancelSends(s: State, cancel: Event)
    requires cancel.Cancel?
    ensures Step(s, cancel).log == s.log + [Cancelled(if cancel.connected then QuitCommands(s, cancel.runsOn) else [])]
  {
  }

  lemma NothingAfterCancel(log: seq<Entry>, quits: seq<int>)
    ensures var after := log + [Cancelled(quits)];
            Last(after) == Cancelled(quits) && Standing(after).None? && Running(after) == NoRun && !PodAsked(after)
  {
    Grow(log, Cancelled(quits));
  }

  /** In every reachable state a cancel that reaches the machine ends what the coordinator had
      waiting for a start or, with nothing waiting, running, and touches nothing else: over a
      standing arm the run is left alone. Motors are stopped before their page is quit, and twice
      if one runs on. Without the link nothing is sent; either way nothing is armed, running or
      asked for afterwards. */
  lemma CancelEndsWhatGoesOn(events: seq<Event>, cancel: Event, going: set<Activity>)
    requires cancel.Cancel?
    ensures var s := Run(INITIAL, events);
            var t := Step(s, cancel);
            var targets := ToEnd(Standing(s.log), PodAsked(s.log), Running(s.log));
            && |t.log| == |s.log| + 1 && Last(t.log).Cancelled?
            && (!cancel.connected ==> Last(t.log).quits == [])
            && (cancel.connected ==> Left(going, Last(t.log).quits) == going - targets
                                     && EndsExactly(targets, Last(t.log).quits, cancel.runsOn))
            && Standing(t.log).None? && Running(t.log) == NoRun && !PodAsked(t.log)
  {
    Reachable(events);
    RunsTellTheLog(events);
    var s := Run(INITIAL, events);
    var quits := QuitCommands(s, cancel.runsOn);
    CancelSends(s, cancel);
    NothingAfterCancel(s.log, if cancel.connected then quits else []);
    if s.arm.op.Some? || s.run.podPrompt {
      WaitingEndsExactly(s, cancel.runsOn);
    } else {
      RunningEndsExactly(s, cancel.runsOn);
    }
    LeftIsTheRest(going, ToEnd(s.arm.op, s.run.podPrompt, s.run.active), quits, cancel.runsOn);
  }

  /** The pause button: nothing over an arm; otherwise the pause of what runs, or its restart if the
      machine shows it paused; and for no manual run only what the state shows to be pausable. */
  lemma PauseGoesToWhatRuns(events: seq<Event>, shown: Shown)
    ensures var s := Run(INITIAL, events);
            var t := Step(s, PauseResume(true, shown));
            && |t.log| == |s.log| + 1 && Last(t.log).PausePressed?
            && var sent := Last(t.log).sent;
               && (Standing(s.log).Some? ==> sent == [])
               && (Standing(s.log).None? && Running(s.log) == ManualGrind ==> sent == [if shown.ShowsPaused? then 8020 else 8018])
               && (Standing(s.log).None? && Running(s.log) == ManualPour ==> sent == [if shown.ShowsPaused? then 8021 else 8019])
               && (Standing(s.log).None? && Running(s.log) !in {ManualGrind, ManualPour} ==>
                     sent == if shown.ShowsPaused? then [40524] else if shown.ShowsBusy? then [40518] else [])
    ensures Step(Run(INITIAL, events), PauseResume(false, shown)) == Run(INITIAL, events)
  {
    Reachable(events);
    RunsTellTheLog(events);
  }

  // ------------------------------------------------------------------
  // Tea bytes
  // ------------------------------------------------------------------

  /** In every reachable state the flag set from the job and the bytes set from the arm chain
      agree, so no confirm lacks its payload. */
  lemma TeaBytesHeld(events: seq<Event>, op: Op)
    ensures var s := Run(INITIAL, events);
            && (s.arm.isTea <==> s.arm.payload.Some?)
            && CommandFor(s.arm, op).Some?
  {
    Reachable(events);
  }

  lemma {:induction false} FindHeld(log: seq<Entry>) returns (a: nat)
    requires Held(log).Some?
    ensures a < |log| && KeptFrom(log, a) && log[a].bytes == Held(log)
    decreases |log|
  {
    if Last(log).Armed? && Last(log).op == Recipe {
      a := |log| - 1;
    } else {
      a := FindHeld(Front(log));
      forall m | a < m < |log|
        ensures !Drops(log[..m], log[m])
      {
        if m < |log| - 1 {
          assert Front(log)[..m] == log[..m];
        } else {
          assert log[..m] == Front(log);
        }
      }
    }
  }

  ghost predicate NoDrop(log: seq<Entry>, from: int, to: int)
    requires 0 <= from <= to <= |log|
  {
    forall m :: from <= m < to ==> !Drops(log[..m], log[m])
  }

  /** Entry a armed a tea recipe and nothing since made the coordinator forget its bytes. */
  ghost predicate KeptFrom(log: seq<Entry>, a: nat) {
    && a < |log| && log[a].Armed? && log[a].op == Recipe && log[a].bytes.Some?
    && NoDrop(log, a + 1, |log|)
  }

  lemma {:induction false} HeldWhileKept(log: seq<Entry>, a: nat)
    requires a < |log| && log[a].Armed? && log[a].op == Recipe && NoDrop(log, a + 1, |log|)
    ensures Held(log) == log[a].bytes
    decreases |log|
  {
    if a < |log| - 1 {
      forall m | a + 1 <= m < |log| - 1
        ensures !Drops(Front(log)[..m], Front(log)[m])
      {
        assert Front(log)[..m] == log[..m];
      }
      assert log[..|log| - 1] == Front(log);
      HeldWhileKept(Front(log), a);
    }
  }

  /** Bytes are held exactly when a tea recipe was armed and nothing since dropped it. */
  lemma BytesHeldIff(events: seq<Event>)
    ensures var s := Run(INITIAL, events);
            s.arm.payload.Some? <==> exists a: nat :: KeptFrom(s.log, a)
  {
    Reachable(events);
    var s := Run(INITIAL, events);
    if s.arm.payload.Some? {
      var a := FindHeld(s.log);
    } else if exists a: nat :: KeptFrom(s.log, a) {
      var a: nat :| KeptFrom(s.log, a);
      HeldWhileKept(s.log, a);
    }
  }

  /** While a recipe is armed, what is held is what its own arm returned: the flag says whether its
      job is tea, and the bytes are the job's tea payload or nothing. */
  lemma ArmedRecipeHoldsItsOwn(events: seq<Event>) returns (a: nat)
    requires Run(INITIAL, events).arm.op == Some(Recipe)
    ensures var s := Run(INITIAL, events);
            && a < |s.log| && s.log[a].Armed? && s.log[a].op == Recipe && Undisturbed(s.log, a + 1, |s.log|, Recipe)
            && s.log[a].job.Some? && BrewChain.ArmReturns(s.log[a].job.value, s.arm.payload)
            && s.arm.isTea == BrewChain.IsTea(s.log[a].job.value.recipe)
  {
    Reachable(events);
    var s := Run(INITIAL, events);
    a := FindArm(s.log, Recipe);
    assert NoDrop(s.log, a + 1, |s.log|) by {
      forall m | a + 1 <= m < |s.log|
        ensures !Drops(s.log[..m], s.log[m])
      {
        NoDropWhileStanding(s.log, a, m);
      }
    }
    HeldWhileKept(s.log, a);
    LawfulAt(s.log, a);
    FlagWhileKept(s.log, a);
  }

  lemma {:induction false} FlagWhileKept(log: seq<Entry>, a: nat)
    requires a < |log| && log[a].Armed? && log[a].op == Recipe && NoDrop(log, a + 1, |log|)
    ensures TeaArmed(log) == (log[a].job.Some? && BrewChain.IsTea(log[a].job.value.recipe))
    decreases |log|
  {
    if a < |log| - 1 {
      forall m | a + 1 <= m < |log| - 1
        ensures !Drops(Front(log)[..m], Front(log)[m])
      {
        assert Front(log)[..m] == log[..m];
      }
      assert log[..|log| - 1] == Front(log);
      FlagWhileKept(Front(log), a);
    }
  }

  /** What does not end a standing recipe arm does not drop its bytes, unless it arms a recipe
      again. */
  lemma NoDropWhileStanding(log: seq<Entry>, a: nat, m: nat)
    requires a < m < |log| && log[a].Armed? && log[a].op == Recipe && Undisturbed(log, a + 1, |log|, Recipe)
    requires !(log[m].Armed? && log[m].op == Recipe)
    ensures !Drops(log[..m], log[m])
  {
    assert !Ends(log[..m], log[m], Recipe);
  }

  /** Bytes can outlive their arm: they are then stale, and it was another operation's arm or the
      end of another operation's confirm that displaced the recipe. */
  predicate Displaces(e: Entry) { (e.Armed? || e.ConfirmEnded?) && e.op != Recipe }

  lemma {:induction false} StandsUnlessDisplaced(log: seq<Entry>, a: nat)
    requires Lawful(log) && KeptFrom(log, a)
    ensures Standing(log) == Some(Recipe) <==> forall m :: a < m < |log| ==> !Displaces(log[m])
    decreases |log|
  {
    var n := |log| - 1;
    assert log[..n] == Front(log);
    if a == n {
    } else {
      assert KeptFrom(Front(log), a) by {
        forall m | a + 1 <= m < n
          ensures !Drops(Front(log)[..m], Front(log)[m])
        {
          assert Front(log)[..m] == log[..m];
        }
      }
      StandsUnlessDisplaced(Front(log), a);
      assert forall m :: a < m < n ==> Front(log)[m] == log[m];
      assert !Drops(Front(log), log[n]);
      assert Standing(Front(log)) == Some(Recipe) ==> (Standing(log) == Some(Recipe) <==> !Displaces(log[n]));
      assert Standing(log) == Some(Recipe) ==> Standing(Front(log)) == Some(Recipe);
    }
  }

  /** Relative to what is armed: held bytes belong to an armed recipe exactly when no other
      operation was armed and no other operation's confirm ended since their arm. */
  lemma HeldBytesBelongIff(events: seq<Event>, a: nat)
    requires KeptFrom(Run(INITIAL, events).log, a)
    ensures var s := Run(INITIAL, events);
            && s.arm.payload == s.log[a].bytes
            && (s.arm.op == Some(Recipe) <==> forall m :: a < m < |s.log| ==> !Displaces(s.log[m]))
  {
    Reachable(events);
    HeldWhileKept(Run(INITIAL, events).log, a);
    StandsUnlessDisplaced(Run(INITIAL, events).log, a);
  }

  /** A 4512 carries the bytes of the last completed recipe arm, not dropped since. */
  lemma TeaStartCarriesArmedBytes(events: seq<Event>, i: nat) returns (a: nat)
    requires i < |Run(INITIAL, events).log|
    requires Run(INITIAL, events).log[i].Started? && Run(INITIAL, events).log[i].command.TeaMake?
    ensures var log := Run(INITIAL, events).log;
            a < i && KeptFrom(log[..i], a) && log[a].bytes == Some(log[i].command.bytes)
  {
    Reachable(events);
    var log := Run(INITIAL, events).log;
    LawfulAt(log, i);
    a := FindHeld(log[..i]);
  }

  lemma {:induction false} NothingHeldOnceDropped(log: seq<Entry>, a: nat)
    requires a < |log| && !NoDrop(log, a + 1, |log|)
    requires forall m :: a < m < |log| ==> !(log[m].Armed? && log[m].op == Recipe)
    ensures Held(log).None?
    decreases |log|
  {
    var n := |log| - 1;
    assert log[..n] == Front(log);
    if !Drops(Front(log), log[n]) {
      var m :| a + 1 <= m < |log| && Drops(log[..m], log[m]);
      assert m < n && Front(log)[..m] == log[..m] && Drops(Front(log)[..m], Front(log)[m]);
      NothingHeldOnceDropped(Front(log), a);
    }
  }

  /** A recipe start sent after a tea arm, with no other recipe arm in between, is 4512 with that
      arm's bytes exactly if nothing dropped them since: no cancel, no end of a recipe confirm,
      no Easy slot start, and no grind or brew signal while the recipe was armed. Otherwise it
      is 8002. */
  lemma TeaStartIff(events: seq<Event>, a: nat, i: nat)
    requires a < i < |Run(INITIAL, events).log|
    requires var log := Run(INITIAL, events).log;
             && log[a].Armed? && log[a].op == Recipe && log[a].bytes.Some? && log[i].Started? && log[i].op == Recipe
             && forall m :: a < m < i ==> !(log[m].Armed? && log[m].op == Recipe)
    ensures var log := Run(INITIAL, events).log;
            && (log[i].command == TeaMake(log[a].bytes.value) <==> NoDrop(log, a + 1, i))
            && (log[i].command == RecipeExecute <==> !NoDrop(log, a + 1, i))
  {
    Reachable(events);
    var log := Run(INITIAL, events).log;
    LawfulAt(log, i);
    var before := log[..i];
    assert forall m :: 0 <= m < i ==> before[m] == log[m] && before[..m] == log[..m];
    assert NoDrop(before, a + 1, i) <==> NoDrop(log, a + 1, i);
    if NoDrop(before, a + 1, i) {
      HeldWhileKept(before, a);
    } else {
      NothingHeldOnceDropped(before, a);
    }
  }

  // ------------------------------------------------------------------
  // Between the press and the first start
  // ------------------------------------------------------------------

  lemma StepExtends(s: State, e: Event)
    ensures s.log <= Step(s, e).log
  {
  }

  lemma {:induction false} RunExtends(s: State, events: seq<Event>)
    ensures s.log <= Run(s, events).log
    decreases |events|
  {
    if events != [] {
      StepExtends(s, events[0]);
      RunExtends(Step(s, events[0]), events[1..]);
    }
  }

  /** Entry i is the k-th start that press `id` sends. */
  ghost predicate StartAt(log: seq<Entry>, id: nat, k: int, i: nat) {
    i < |log| && log[i].Started? && log[i].id == id && StartsOf(log[..i], id) == k - 1
  }

  /** Whatever happens after, the press's k-th start goes out with its own arm standing and is the
      start of that arm. */
  ghost predicate AlwaysSound(t: State, id: nat, k: int, op: Op, command: StartCommand) {
    forall more: seq<Event>, i: nat :: StartAt(Run(t, more).log, id, k, i) ==>
      Standing(Run(t, more).log[..i]) == Some(op) && Run(t, more).log[i].command == command
  }

  ghost predicate AlwaysCommand(t: State, id: nat, k: int, command: StartCommand) {
    forall more: seq<Event>, i: nat :: StartAt(Run(t, more).log, id, k, i) ==> Run(t, more).log[i].command == command
  }

  lemma {:induction false} NoStartBefore(log: seq<Entry>, id: nat)
    requires StartsOf(log, id) == 0
    ensures forall m :: 0 <= m < |log| ==> !(log[m].Started? && log[m].id == id)
    decreases |log|
  {
    if log != [] {
      NoStartBefore(Front(log), id);
      assert forall m :: 0 <= m < |log| - 1 ==> Front(log)[m] == log[m];
    }
  }

  /** A press made with the link up and the machine awake sends its start there and then. */
  lemma ReadyPressStarts(events: seq<Event>, op: Op)
    requires Run(INITIAL, events).arm.op == Some(op)
    ensures var s := Run(INITIAL, events);
            && CommandFor(s.arm, op).Some?
            && Step(s, Press(op, true, false)).log
               == s.log + [Pressed(op, s.nextId, true)] + [Confirming(op, s.nextId)]
                        + [Started(op, s.nextId, CommandFor(s.arm, op).value)]
            && Standing(s.log + [Pressed(op, s.nextId, true)] + [Confirming(op, s.nextId)]) == Some(op)
  {
    Reachable(events);
    var s := Run(INITIAL, events);
    Grow(s.log, Pressed(op, s.nextId, true));
    Grow(s.log + [Pressed(op, s.nextId, true)], Confirming(op, s.nextId));
  }

  lemma FirstStartOfReady(events: seq<Event>, op: Op, more: seq<Event>, i: nat)
    requires Run(INITIAL, events).arm.op == Some(op)
    requires StartAt(Run(Step(Run(INITIAL, events), Press(op, true, false)), more).log, Run(INITIAL, events).nextId, 1, i)
    ensures var s := Run(INITIAL, events);
            var log := Run(Step(s, Press(op, true, false)), more).log;
            && CommandFor(s.arm, op).Some?
            && Standing(log[..i]) == Some(op) && log[i].command == CommandFor(s.arm, op).value
  {
    Reachable(events);
    ReadyPressStarts(events, op);
    var s := Run(INITIAL, events);
    var t := Step(s, Press(op, true, false));
    RunExtends(t, more);
    assert TaskInvariant(s.tasks, s.nextId, s.log, s.nextId);
    FirstStartIsFirst(s.log, Pressed(op, s.nextId, true), Confirming(op, s.nextId),
                      Started(op, s.nextId, CommandFor(s.arm, op).value), Run(t, more).log, i);
  }

  /** The first start of an id is the first entry that starts it. */
  lemma FirstStartIsFirst(before: seq<Entry>, a: Entry, b: Entry, start: Entry, log: seq<Entry>, i: nat)
    requires start.Started? && !a.Started? && !b.Started? && StartsOf(before, start.id) == 0
    requires before + [a] + [b] + [start] <= log && StartAt(log, start.id, 1, i)
    ensures log[..i] == before + [a] + [b] && log[i] == start
  {
    var n := |before|;
    NoStartBefore(before, start.id);
    NoStartBefore(log[..i], start.id);
    assert log[n] == a && log[n + 1] == b && log[n + 2] == start;
    assert forall m :: 0 <= m < n ==> log[m] == before[m];
    assert forall m :: 0 <= m < i ==> log[..i][m] == log[m];
    assert !(n + 2 < i);
  }

  // Runs that break it. A cancel comes between the press, or an attempt, and the next start.

  /** What lets a waiting confirm go on: the link comes up, or the machine has been woken. */
  function Resume(id: nat, link: bool): Event { if link then Woken(id) else Linked(id, false) }

  ghost predicate Reaches(s: State, events: seq<Event>, t: State) { Run(s, events) == t }

  lemma {:induction false} ReachesAppend(s: State, a: seq<Event>, t: State, b: seq<Event>, u: State)
    requires Reaches(s, a, t) && Reaches(t, b, u)
    ensures Reaches(s, a + b, u)
    decreases |a|
  {
    if a == [] {
      assert a + b == b;
    } else {
      assert (a + b)[1..] == a[1..] + b;
      ReachesAppend(Step(s, a[0]), a[1..], t, b, u);
    }
  }

  lemma ReachesOne(s: State, e: Event)
    ensures Reaches(s, [e], Step(s, e))
  {
    assert [e][1..] == [];
    assert Run(Step(s, e), []) == Step(s, e);
  }

  lemma ReachesThree(s: State, e: Event, f: Event, g: Event)
    ensures Reaches(s, [e] + [f] + [g], Step(Step(Step(s, e), f), g))
  {
    ReachesOne(s, e);
    ReachesOne(Step(s, e), f);
    ReachesOne(Step(Step(s, e), f), g);
    ReachesAppend(s, [e], Step(s, e), [f], Step(Step(s, e), f));
    ReachesAppend(s, [e] + [f], Step(Step(s, e), f), [g], Step(Step(Step(s, e), f), g));
  }

  /** A waiting confirm whose operation is cancelled before it goes on. */
  lemma CancelledThenStarted(s: State, id: nat, op: Op, cancel: Event, e: Event)
    requires cancel.Cancel?
    requires id in s.tasks && s.tasks[id].op == op
    requires (s.tasks[id].Connecting? && e == Linked(id, false)) || (s.tasks[id].Waking? && e == Woken(id))
             || (s.tasks[id].Resting? && e == Rested(id))
    ensures Step(Step(s, cancel), e).log
            == s.log + [CancelEntry(s, cancel)] + Begun(op, id, s.tasks[id].Connecting?)
               + [Started(op, id, CommandFor(NO_ARM, op).value)]
  {
  }

  /** What a confirm notes when it gets the link. */
  function Begun(op: Op, id: nat, begins: bool): seq<Entry> { if begins then [Confirming(op, id)] else [] }

  /** A confirming press that is not made ready waits. */
  ghost predicate Waits(s: State, op: Op, link: bool, pressed: State) {
    && pressed.log == s.log + [Pressed(op, s.nextId, true)] + Begun(op, s.nextId, link) && s.nextId in pressed.tasks
    && pressed.arm == s.arm && pressed.tasks[s.nextId] == if link then Waking(op) else Connecting(op)
  }

  lemma PressWaits(s: State, op: Op, link: bool, asleep: bool)
    requires s.arm.op == Some(op) && !(link && !asleep)
    ensures Waits(s, op, link, Step(s, Press(op, link, asleep)))
  {
  }

  lemma NewPressHasNoStarts(events: seq<Event>, op: Op)
    ensures var s := Run(INITIAL, events);
            && StartsOf(s.log + [Pressed(op, s.nextId, true)], s.nextId) == 0
            && StartsOf(s.log + [Pressed(op, s.nextId, true)] + [Confirming(op, s.nextId)], s.nextId) == 0
  {
    Reachable(events);
    var s := Run(INITIAL, events);
    Grow(s.log, Pressed(op, s.nextId, true));
    Grow(s.log + [Pressed(op, s.nextId, true)], Confirming(op, s.nextId));
    assert TaskInvariant(s.tasks, s.nextId, s.log, s.nextId);
  }

  /** A cancel while it waits comes too late: the start goes out with nothing armed, and for a
      recipe it is the coffee start. */
  lemma CancelAfterThePressIsTooLate(events: seq<Event>, op: Op, link: bool, asleep: bool, cancel: Event)
    requires cancel.Cancel? && Run(INITIAL, events).arm.op == Some(op) && !(link && !asleep)
    ensures var s := Run(INITIAL, events);
            var pressed := Step(s, Press(op, link, asleep));
            var t := Step(Step(pressed, cancel), Resume(s.nextId, link));
            && t.log == s.log + [Pressed(op, s.nextId, true)] + Begun(op, s.nextId, link) + [CancelEntry(pressed, cancel)]
                        + Begun(op, s.nextId, !link) + [Started(op, s.nextId, CommandFor(NO_ARM, op).value)]
            && LateStart(t.log, s.nextId, 1, op)
  {
    var s := Run(INITIAL, events);
    var id, pressed := s.nextId, Step(s, Press(op, link, asleep));
    PressWaits(s, op, link, asleep);
    NewPressHasNoStarts(events, op);
    CancelledThenStarted(pressed, id, op, cancel, Resume(id, link));
    assert !link ==> pressed.log == s.log + [Pressed(op, id, true)];
    LateAtTheEnd(pressed.log, CancelEntry(pressed, cancel), Begun(op, id, !link), id, 1, op);
  }

  /** The log ends with the press's k-th start, sent right after a cancel (or after the link that came
      up right after it), with nothing armed. */
  ghost predicate LateStart(log: seq<Entry>, id: nat, k: int, op: Op) {
    && |log| >= 3 && StartAt(log, id, k, |log| - 1) && Standing(log[..|log| - 1]).None?
    && log[|log| - 1].command == CommandFor(NO_ARM, op).value
    && (log[|log| - 2].Cancelled? || (log[|log| - 2].Confirming? && log[|log| - 3].Cancelled?))
  }

  lemma LateAtTheEnd(before: seq<Entry>, cancel: Entry, begun: seq<Entry>, id: nat, k: int, op: Op)
    requires before != [] && StartsOf(before, id) == k - 1 && cancel.Cancelled?
    requires begun == [] || begun == [Confirming(op, id)]
    ensures LateStart(before + [cancel] + begun + [Started(op, id, CommandFor(NO_ARM, op).value)], id, k, op)
  {
    var log := before + [cancel] + begun + [Started(op, id, CommandFor(NO_ARM, op).value)];
    assert log[..|log| - 1] == before + [cancel] + begun;
    Grow(before, cancel);
    if begun == [] {
      assert before + [cancel] + begun == before + [cancel];
    } else {
      Grow(before + [cancel], Confirming(op, id));
    }
  }

  /** An attempt that has sent its k-th start and that the retry loop repeats, because the machine
      reads asleep: done or, for tea, without an echo. */
  predicate Retries(s: State, id: nat, op: Op, k: int, outcome: BrewChain.Outcome) {
    && id in s.tasks && s.tasks[id].Sending? && s.tasks[id].op == op && s.tasks[id].attempt == k < 3
    && !outcome.Failed? && CanEnd(s.tasks[id], outcome)
  }

  lemma StartsMeanEntries(log: seq<Entry>, id: nat)
    ensures StartsOf(log, id) > 0 ==> log != []
  {
  }

  /** A cancel before the repetition comes too late as well, */
  lemma CancelBeforeTheRetryIsTooLate(s: State, id: nat, op: Op, k: int, outcome: BrewChain.Outcome, cancel: Event)
    requires cancel.Cancel? && k >= 1 && Retries(s, id, op, k, outcome) && StartsOf(s.log, id) == k
    ensures var t := Step(Step(Step(s, AttemptOver(id, outcome, true)), cancel), Rested(id));
            LateStart(t.log, id, k + 1, op)
  {
    var resting := Step(s, AttemptOver(id, outcome, true));
    CancelledThenStarted(resting, id, op, cancel, Rested(id));
    StartsMeanEntries(resting.log, id);
    LateAtTheEnd(resting.log, CancelEntry(resting, cancel), [], id, k + 1, op);
  }

  lemma RestsAfter(s: State, id: nat, op: Op, k: int, outcome: BrewChain.Outcome)
    requires Retries(s, id, op, k, outcome)
    ensures Step(s, AttemptOver(id, outcome, true)) == s.(tasks := s.tasks[id := Resting(op, s.tasks[id].asleep, k + 1)])
  {
  }

  lemma FiresAfter(s: State, id: nat, op: Op, asleep: bool, k: int)
    requires id in s.tasks && s.tasks[id] == Resting(op, asleep, k) && CommandFor(s.arm, op).Some?
    ensures var t := Step(s, Rested(id));
            && t.tasks == s.tasks[id := Sending(op, asleep, k, Gated(CommandFor(s.arm, op)))]
            && StartsOf(t.log, id) == StartsOf(s.log, id) + 1
  {
    Grow(s.log, Started(op, id, CommandFor(s.arm, op).value));
  }

  /** and without one the repetition is sent. */
  lemma AnotherStart(s: State, id: nat, op: Op, k: int, outcome: BrewChain.Outcome) returns (t: State)
    requires Retries(s, id, op, k, outcome) && StartsOf(s.log, id) == k && CommandFor(s.arm, op).Some?
    ensures Reaches(s, [AttemptOver(id, outcome, true)] + [Rested(id)], t)
    ensures id in t.tasks && t.tasks[id] == Sending(op, s.tasks[id].asleep, k + 1, Gated(CommandFor(s.arm, op)))
    ensures StartsOf(t.log, id) == k + 1
  {
    var resting := Step(s, AttemptOver(id, outcome, true));
    t := Step(resting, Rested(id));
    RestsAfter(s, id, op, k, outcome);
    FiresAfter(resting, id, op, s.tasks[id].asleep, k + 1);
    ReachesOne(s, AttemptOver(id, outcome, true));
    ReachesOne(resting, Rested(id));
    ReachesAppend(s, [AttemptOver(id, outcome, true)], resting, [Rested(id)], t);
  }

  /** The press's first attempt has just sent its start. */
  ghost predicate Attempted(t: State, id: nat, op: Op) {
    && id in t.tasks && t.tasks[id].Sending? && t.tasks[id].op == op && t.tasks[id].attempt == 1
    && t.tasks[id].gated == Gated(CommandFor(t.arm, op))
    && StartsOf(t.log, id) == 1 && CommandFor(t.arm, op).Some?
  }

  lemma FireAttempts(s: State, id: nat, op: Op, asleep: bool)
    requires StartsOf(s.log, id) == 0 && CommandFor(s.arm, op).Some?
    ensures Attempted(Fire(s, id, op, asleep, 1), id, op)
  {
    Grow(s.log, Started(op, id, CommandFor(s.arm, op).value));
  }

  lemma ArmedCommand(events: seq<Event>, op: Op)
    requires Run(INITIAL, events).arm.op == Some(op)
    ensures var arm := Run(INITIAL, events).arm;
            CommandFor(arm, op).Some? && (Gated(CommandFor(arm, op)) <==> op == Recipe && arm.isTea)
  {
    Reachable(events);
  }

  /** Ready or not, a confirming press gets to its first attempt. */
  lemma FirstAttempt(events: seq<Event>, op: Op, link: bool, asleep: bool) returns (more: seq<Event>, t: State)
    requires Run(INITIAL, events).arm.op == Some(op)
    ensures var s := Run(INITIAL, events);
            Reaches(Step(s, Press(op, link, asleep)), more, t) && Attempted(t, s.nextId, op) && t.arm == s.arm
  {
    var s := Run(INITIAL, events);
    var id, pressed := s.nextId, Step(s, Press(op, link, asleep));
    NewPressHasNoStarts(events, op);
    ArmedCommand(events, op);
    if link && !asleep {
      more, t := [], pressed;
      FireAttempts(s.(nextId := id + 1, log := s.log + [Pressed(op, id, true)] + [Confirming(op, id)],
                      run := s.run.(active := RunOf(op))), id, op, false);
    } else {
      PressWaits(s, op, link, asleep);
      more, t := [Resume(id, link)], Step(pressed, Resume(id, link));
      ReachesOne(pressed, Resume(id, link));
      if link {
        FireAttempts(pressed, id, op, true);
      } else {
        assert pressed.log == s.log + [Pressed(op, id, true)];
        FireAttempts(pressed.(run := pressed.run.(active := RunOf(op)), log := pressed.log + [Confirming(op, id)]), id, op, false);
      }
    }
  }

  /** No press is safe for its retries: in every reachable state, after every confirming press,
      there is a run in which the second or third start goes out after a cancel, with nothing
      armed. The repeated attempts may have succeeded or, for tea, lost their echo. */
  lemma LateRetry(events: seq<Event>, op: Op, link: bool, asleep: bool, k: int, outcome: BrewChain.Outcome, cancel: Event)
    returns (more: seq<Event>)
    requires Run(INITIAL, events).arm.op == Some(op) && 2 <= k <= 3 && cancel.Cancel?
    requires !outcome.Failed? && (outcome.TimedOut? ==> op == Recipe && Run(INITIAL, events).arm.isTea)
    ensures var s := Run(INITIAL, events);
            LateStart(Run(Step(s, Press(op, link, asleep)), more).log, s.nextId, k, op)
    ensures |more| >= 2 && more[|more| - 2] == cancel
  {
    var s := Run(INITIAL, events);
    var id, pressed := s.nextId, Step(s, Press(op, link, asleep));
    var t;
    ArmedCommand(events, op);
    more, t := FirstAttempt(events, op, link, asleep);
    if k == 3 {
      var again := [AttemptOver(id, outcome, true)] + [Rested(id)];
      var u := AnotherStart(t, id, op, 1, outcome);
      ReachesAppend(pressed, more, t, again, u);
      more, t := more + again, u;
    }
    CancelBeforeTheRetryIsTooLate(t, id, op, k - 1, outcome, cancel);
    var last := [AttemptOver(id, outcome, true)] + [cancel] + [Rested(id)];
    ReachesThree(t, AttemptOver(id, outcome, true), cancel, Rested(id));
    var v := Step(Step(Step(t, AttemptOver(id, outcome, true)), cancel), Rested(id));
    ReachesAppend(pressed, more, t, last, v);
    more := more + last;
  }

  /** For each of the starts a confirming press may send there is such a run, except for the first
      start of a press made ready. */
  lemma LateStartRun(events: seq<Event>, op: Op, link: bool, asleep: bool, k: int) returns (more: seq<Event>)
    requires Run(INITIAL, events).arm.op == Some(op) && 1 <= k <= 3 && !(k == 1 && link && !asleep)
    ensures var s := Run(INITIAL, events);
            LateStart(Run(Step(s, Press(op, link, asleep)), more).log, s.nextId, k, op)
  {
    if k > 1 {
      more := LateRetry(events, op, link, asleep, k, BrewChain.Done, Cancel(true, false));
    } else {
      var s := Run(INITIAL, events);
      var pressed := Step(s, Press(op, link, asleep));
      var cancel := Cancel(link, false);
      CancelAfterThePressIsTooLate(events, op, link, asleep, cancel);
      more := [cancel] + [Resume(s.nextId, link)];
      ReachesOne(pressed, cancel);
      ReachesOne(Step(pressed, cancel), Resume(s.nextId, link));
      ReachesAppend(pressed, [cancel], Step(pressed, cancel), [Resume(s.nextId, link)],
                    Step(Step(pressed, cancel), Resume(s.nextId, link)));
    }
  }

  lemma SoundAt(t: State, id: nat, k: int, op: Op, command: StartCommand, more: seq<Event>, i: nat)
    requires AlwaysSound(t, id, k, op, command) && StartAt(Run(t, more).log, id, k, i)
    ensures Standing(Run(t, more).log[..i]) == Some(op)
  {
  }

  lemma LateBreaks(log: seq<Entry>, id: nat, k: int, op: Op, i: int)
    requires LateStart(log, id, k, op) && i == |log| - 1
    ensures i >= 0 && StartAt(log, id, k, i) && Standing(log[..i]) != Some(op)
  {
  }

  lemma LateIsUnsound(t: State, id: nat, k: int, op: Op, command: StartCommand, more: seq<Event>)
    requires LateStart(Run(t, more).log, id, k, op)
    ensures !AlwaysSound(t, id, k, op, command)
  {
    var log := Run(t, more).log;
    LateBreaks(log, id, k, op, |log| - 1);
    var i: nat := |log| - 1;
    if AlwaysSound(t, id, k, op, command) {
      SoundAt(t, id, k, op, command, more, i);
    }
  }

  lemma LateIsCoffee(t: State, id: nat, k: int, bytes: seq<byte>, more: seq<Event>)
    requires LateStart(Run(t, more).log, id, k, Recipe)
    ensures !AlwaysCommand(t, id, k, TeaMake(bytes))
  {
    var i := |Run(t, more).log| - 1;
    assert StartAt(Run(t, more).log, id, k, i) && Run(t, more).log[i].command == RecipeExecute;
  }

  /** The arm is checked at the press, not at the send. In every reachable state with an arm of
      `op` standing: the k-th start of the press of its button is certain to go out under that
      arm exactly if it is the first and the press is made with the link up and the machine
      awake. */
  lemma StartIsSafeIff(events: seq<Event>, op: Op, link: bool, asleep: bool, k: int)
    requires Run(INITIAL, events).arm.op == Some(op) && 1 <= k <= 3
    ensures var s := Run(INITIAL, events);
            && CommandFor(s.arm, op).Some?
            && (AlwaysSound(Step(s, Press(op, link, asleep)), s.nextId, k, op, CommandFor(s.arm, op).value)
                <==> k == 1 && link && !asleep)
  {
    Reachable(events);
    var s := Run(INITIAL, events);
    var t := Step(s, Press(op, link, asleep));
    if k == 1 && link && !asleep {
      forall more: seq<Event>, i: nat | StartAt(Run(t, more).log, s.nextId, k, i)
        ensures Standing(Run(t, more).log[..i]) == Some(op) && Run(t, more).log[i].command == CommandFor(s.arm, op).value
      {
        FirstStartOfReady(events, op, more, i);
      }
    } else {
      var more := LateStartRun(events, op, link, asleep, k);
      LateIsUnsound(t, s.nextId, k, op, CommandFor(s.arm, op).value, more);
    }
  }

  /** For a tea arm in particular: the k-th start is certain to be 4512 with its own bytes under
      exactly the same condition; otherwise it can be 8002. */
  lemma TeaStartIsSafeIff(events: seq<Event>, bytes: seq<byte>, link: bool, asleep: bool, k: int)
    requires Run(INITIAL, events).arm.op == Some(Recipe) && Run(INITIAL, events).arm.payload == Some(bytes) && 1 <= k <= 3
    ensures var s := Run(INITIAL, events);
            AlwaysCommand(Step(s, Press(Recipe, link, asleep)), s.nextId, k, TeaMake(bytes)) <==> k == 1 && link && !asleep
  {
    Reachable(events);
    var s := Run(INITIAL, events);
    var t := Step(s, Press(Recipe, link, asleep));
    if k == 1 && link && !asleep {
      forall more: seq<Event>, i: nat | StartAt(Run(t, more).log, s.nextId, k, i)
        ensures Run(t, more).log[i].command == TeaMake(bytes)
      {
        FirstStartOfReady(events, Recipe, more, i);
      }
    } else {
      var more := LateStartRun(events, Recipe, link, asleep, k);
      LateIsCoffee(t, s.nextId, k, bytes, more);
    }
  }

  /** A cancel is not the only way: a start signal while the press waits does it too. */
  lemma StartSignalWhileWaiting(events: seq<Event>, link: bool, asleep: bool, signal: Signal)
    requires Run(INITIAL, events).arm.op == Some(Recipe) && !(link && !asleep)
    requires signal in {EasySlotStarted, GrindingStarted, BrewingStarted}
    ensures var s := Run(INITIAL, events);
            var t := Step(Step(Step(s, Press(Recipe, link, asleep)), Dispatch(signal)), Resume(s.nextId, link));
            t.log != [] && Last(t.log) == Started(Recipe, s.nextId, RecipeExecute)
  {
    var s := Run(INITIAL, events);
    var pressed := Step(s, Press(Recipe, link, asleep));
    PressWaits(s, Recipe, link, asleep);
    SignalDrops(pressed, signal);
    ResumedAsCoffee(Step(pressed, Dispatch(signal)), s.nextId, link);
  }

  lemma SignalDrops(s: State, signal: Signal)
    requires s.arm.op == Some(Recipe) && signal in {EasySlotStarted, GrindingStarted, BrewingStarted}
    ensures Step(s, Dispatch(signal)).arm == NO_ARM && Step(s, Dispatch(signal)).tasks == s.tasks
  {
  }

  lemma ResumedAsCoffee(s: State, id: nat, link: bool)
    requires id in s.tasks && s.tasks[id] == (if link then Waking(Recipe) else Connecting(Recipe)) && s.arm == NO_ARM
    ensures var t := Step(s, Resume(id, link)); t.log != [] && Last(t.log) == Started(Recipe, id, RecipeExecute)
  {
  }

  /** And so does a second press of the same arm: two presses that have to wait for the link both
      confirm, */
  lemma TwoPressesWait(events: seq<Event>)
    requires Run(INITIAL, events).arm.op == Some(Recipe)
    ensures var s := Run(INITIAL, events);
            var t := Step(Step(s, Press(Recipe, false, false)), Press(Recipe, false, false));
            t.tasks == s.tasks[s.nextId := Connecting(Recipe)][s.nextId + 1 := Connecting(Recipe)]
  {
  }

  /** and once the first is over the second is sent as coffee. */
  lemma SecondPressGoesOutAsCoffee(s: State, first: nat, second: nat)
    requires first != second && first in s.tasks && second in s.tasks
    requires s.tasks[first] == Connecting(Recipe) && s.tasks[second] == Connecting(Recipe)
    ensures var s2 := Step(Step(s, Linked(first, false)), AttemptOver(first, BrewChain.Done, false));
            var t := Step(s2, Linked(second, false));
            t.log != [] && Last(t.log) == Started(Recipe, second, RecipeExecute)
  {
  }

  // A tea recipe without steeps, for runs that need one.
  const TEA_RECIPE := BrewChain.Payload.Recipe(0, 0, 0, 4, 0.0, [])
  const TEA_JOB := BrewChain.Job(TEA_RECIPE, 0.0, 0.0)

  lemma TeaJobReturns()
    ensures BrewChain.ArmReturns(TEA_JOB, Some([0, 0, 0]))
  {
    assert BrewChain.Payload.Assemble([], 0, 0).value == [0, 0, 0];
  }

  /** Bytes outlive the recipe they belong to: arming the grinder over an armed tea recipe leaves
      them held. */
  lemma StaleBytes()
    ensures Run(INITIAL, STALE).arm == Arm(Some(Grind), true, Some([0, 0, 0]))
  {
    TeaJobReturns();
    var s1 := Step(INITIAL, STALE[0]);
    var s2 := Step(s1, STALE[1]);
    var s3 := Step(s2, STALE[2]);
    var s4 := Step(s3, STALE[3]);
    var s5 := Step(s4, STALE[4]);
    assert s2.tasks[0] == Arming(Recipe, Some(TEA_JOB));
    assert s3.arm == Arm(Some(Recipe), true, Some([0, 0, 0]));
    assert s4.tasks[1] == Arming(Grind, None);
    assert Run(s5, []) == s5;
    assert Run(s4, [STALE[4]]) == s5;
    assert Run(s3, [STALE[3], STALE[4]]) == s5;
    assert Run(s2, [STALE[2], STALE[3], STALE[4]]) == s5;
    assert Run(s1, [STALE[1], STALE[2], STALE[3], STALE[4]]) == s5;
    assert STALE[1..] == [STALE[1], STALE[2], STALE[3], STALE[4]];
  }

  const STALE: seq<Event> := [
    Press(Recipe, true, false), Prepared(0, TEA_JOB), ArmLanded(0, Some([0, 0, 0])),
    Press(Grind, true, false), ArmLanded(1, None)]

  // ------------------------------------------------------------------
  // The coordinator
  // ------------------------------------------------------------------

  class Coordinator {
    var arm: Arm
    var run: RunFlags
    var lastScreen: Option<Page>
    var tasks: map<nat, Task>
    var nextId: nat
    ghost var log: seq<Entry>

    ghost function View(): State
      reads this
    {
      State(arm, run, lastScreen, tasks, nextId, log)
    }

    constructor ()
      ensures View() == INITIAL
    {
      arm := NO_ARM;
      run := RunFlags(NoRun, false, false, false, false);
      lastScreen, tasks, nextId, log := None, map[], 0, [];
    }

    /** async_press of the grind, pour and recipe buttons, up to where it first waits. */
    method PressButton(op: Op, link: bool, asleep: bool) returns (id: nat)
      modifies this
      ensures View() == Step(old(View()), Press(op, link, asleep)) && id == old(nextId)
    {
      id := nextId;
      var confirms := arm.op == Some(op);
      log := log + [Pressed(op, id, confirms)];
      nextId := nextId + 1;
      if !confirms {
        tasks := tasks[id := Arming(op, None)];
      } else if !link {
        tasks := tasks[id := Connecting(op)];
      } else {
        BeginConfirm(id, op, asleep);
      }
    }

    /** _prepare_recipe_execution, for a recipe arm that has the link. */
    method PrepareArm(id: nat, job: Job)
      requires id in tasks && tasks[id] == Arming(Recipe, None)
      modifies this`tasks
      ensures View() == Step(old(View()), Prepared(id, job))
    {
      tasks := tasks[id := Arming(Recipe, Some(job))];
    }

    /** The assignments at the end of async_arm_grind, async_arm_pour and async_arm_recipe. */
    method CompleteArm(id: nat, returned: Option<seq<byte>>)
      requires id in tasks && tasks[id].Arming?
      requires tasks[id].op == Recipe ==> tasks[id].job.Some? && BrewChain.ArmReturns(tasks[id].job.value, returned)
      modifies this
      ensures View() == Step(old(View()), ArmLanded(id, returned))
    {
      var task := tasks[id];
      tasks := tasks - {id};
      arm := arm.(op := Some(task.op));
      if task.op == Recipe {
        arm := arm.(isTea := BrewChain.IsTea(task.job.value.recipe), payload := returned);
        log := log + [Armed(Recipe, id, task.job, returned)];
      } else {
        log := log + [Armed(task.op, id, None, None)];
      }
    }

    /** The link came up for a confirm that waited for it. */
    method LinkUp(id: nat, asleep: bool)
      requires id in tasks && tasks[id].Connecting?
      modifies this
      ensures View() == Step(old(View()), Linked(id, asleep))
    {
      BeginConfirm(id, tasks[id].op, asleep);
    }

    /** The start of async_confirm_grind, async_confirm_pour and async_confirm_recipe once the
        link is up. */
    method BeginConfirm(id: nat, op: Op, asleep: bool)
      modifies this`run, this`tasks, this`log
      ensures View() == Confirm(old(View()), id, op, asleep)
    {
      run := run.(active := RunOf(op));
      log := log + [Confirming(op, id)];
      if asleep {
        tasks := tasks[id := Waking(op)];
      } else {
        SendStartCommand(id, op, false, 1);
      }
    }

    /** One attempt of the confirm's send; the flags are read at this moment. */
    method SendStartCommand(id: nat, op: Op, asleep: bool, attempt: int)
      modifies this`tasks, this`log
      ensures View() == Fire(old(View()), id, op, asleep, attempt)
    {
      tasks := tasks[id := Sending(op, asleep, attempt, op == Recipe && arm.isTea && arm.payload.Some?)];
      match op {
        case Grind => log := log + [Started(op, id, GrinderStart)];
        case Pour => log := log + [Started(op, id, BrewerStart)];
        case Recipe =>
          if !arm.isTea {
            log := log + [Started(op, id, RecipeExecute)];
          } else if arm.payload.Some? {
            log := log + [Started(op, id, TeaMake(arm.payload.value))];
          }
      }
    }

    /** The machine has been woken, or did not wake. */
    method WakingOver(id: nat)
      requires id in tasks && tasks[id].Waking?
      modifies this
      ensures View() == Step(old(View()), Woken(id))
    {
      SendStartCommand(id, tasks[id].op, true, 1);
    }

    /** A wait that raises ends the confirm without a start. */
    method BreakOff(id: nat)
      requires id in tasks && (tasks[id].Waking? || tasks[id].Resting?)
      modifies this
      ensures View() == Step(old(View()), WaitFailed(id))
      ensures old(log) <= log && forall i :: |old(log)| <= i < |log| ==> !log[i].Started?
    {
      EndConfirm(id, false);
    }

    /** The end of an attempt in the sleep retry: another one, or the end of the confirm. */
    method EndAttempt(id: nat, outcome: BrewChain.Outcome, sleeping: bool)
      requires id in tasks && tasks[id].Sending? && CanEnd(tasks[id], outcome)
      modifies this
      ensures View() == Step(old(View()), AttemptOver(id, outcome, sleeping))
    {
      var task := tasks[id];
      if outcome.TimedOut? {
        if task.attempt >= BrewChain.MAX_ATTEMPTS || !(task.asleep || sleeping) {
          EndConfirm(id, false);
          return;
        }
      } else if outcome.Failed? {
        EndConfirm(id, false);
        return;
      } else if !sleeping || task.attempt >= BrewChain.MAX_ATTEMPTS {
        EndConfirm(id, true);
        return;
      }
      tasks := tasks[id := Resting(task.op, task.asleep, task.attempt + 1)];
    }

    /** The retry delay is over. */
    method NextAttempt(id: nat)
      requires id in tasks && tasks[id].Resting?
      modifies this
      ensures View() == Step(old(View()), Rested(id))
    {
      SendStartCommand(id, tasks[id].op, tasks[id].asleep, tasks[id].attempt);
    }

    /** The except and finally clauses of the confirms. */
    method EndConfirm(id: nat, ok: bool)
      requires id in tasks
      modifies this
      ensures View() == ConfirmOverStep(old(View()), id, ok)
    {
      var op := tasks[id].op;
      tasks := tasks - {id};
      if !ok && op == Recipe {
        run := run.(active := NoRun);
      }
      arm := arm.(op := None);
      if op == Recipe {
        arm := arm.(isTea := false, payload := None);
      }
      log := log + [ConfirmEnded(op, id)];
      if !ok && op == Recipe {
        log := log + [RunFailed];
      }
    }

    /** async_cancel: the bookkeeping goes first, whether or not the machine can be reached. */
    method CancelAll(connected: bool, runsOn: bool) returns (sent: seq<int>)
      modifies this
      ensures View() == Step(old(View()), Cancel(connected, runsOn))
      ensures View().log == old(log) + [Cancelled(sent)]
      ensures !connected ==> sent == []
    {
      var active, armed, prompt := run.active, arm.op, run.podPrompt;
      run := NoManualRun(run.(active := NoRun, podPrompt := false));
      arm := NO_ARM;
      sent := [];
      if connected {
        if armed.Some? {
          sent := sent + [QuitCommand(armed.value)];
        }
        assert 8017 in sent <==> armed == Some(Recipe);
        if prompt && 8017 !in sent {
          sent := sent + [8017];
        }
        assert armed.Some? || prompt ==> sent == QuitCommands(old(View()), runsOn);
        if sent == [] {
          match active {
            case ManualGrind =>
              sent := StopVerified(3505, runsOn);
              sent := sent + [8012];
            case ManualPour =>
              sent := StopVerified(4507, runsOn);
              sent := sent + [8013];
            case _ => sent := [40519];
          }
        }
      }
      log := log + [Cancelled(sent)];
    }

    /** A stop and _async_verify_component_stop after it. */
    method StopVerified(stop: int, runsOn: bool) returns (sent: seq<int>)
      ensures sent == Stops(stop, runsOn)
    {
      sent := [stop];
      if runsOn {
        sent := sent + [stop];
      }
    }

    /** _dispatch_event, for the events that move arms and runs. */
    method DispatchEvent(signal: Signal)
      modifies this
      ensures View() == Step(old(View()), Dispatch(signal))
    {
      log := log + [Signalled(signal)];
      MovePrompt(signal);
      StartSignal(signal);
      EndSignal(signal);
    }

    method MovePrompt(signal: Signal)
      modifies this`run
      ensures run == Prompted(old(run), signal)
    {
      if signal == PodDetected {
        run := run.(podPrompt := true);
      } else if signal == GrindingStarted || signal == BrewingStarted {
        run := run.(podPrompt := false);
      }
    }

    /** A start the machine reports consumes the arm it belongs to. */
    method StartSignal(signal: Signal)
      modifies this`arm, this`run
      ensures arm == ArmAfterSignal(old(arm), signal)
      ensures run == old(run).(active := ActiveAfterStart(old(run).active, old(arm), signal))
    {
      if signal == EasySlotStarted {
        arm := NO_ARM;
        run := run.(active := RecipeRun);
      } else if signal == GrindingStarted || signal == BrewingStarted {
        if arm.op == Some(Recipe) {
          arm := NO_ARM;
          run := run.(active := RecipeRun);
        } else if arm.op == Some(Grind) && signal == GrindingStarted {
          arm := arm.(op := None);
          run := run.(active := ManualGrind);
        } else if arm.op == Some(Pour) && signal == BrewingStarted {
          arm := arm.(op := None);
          run := run.(active := ManualPour);
        }
      }
    }

    /** _finish_run, for the signals that end a run. */
    method EndSignal(signal: Signal)
      modifies this`run
      ensures run == Ended(old(run), signal)
    {
      if signal == RunComplete || signal == RunError {
        run := NoManualRun(run.(active := NoRun));
      } else if signal == GrindingComplete && run.active == ManualGrind {
        run := run.(active := NoRun);
      }
    }

    method ReconcileArmedWithScreen(screen: Option<Page>)
      modifies this`arm, this`lastScreen, this`log
      ensures View() == ReconcileArmed(old(View()), screen)
    {
      var last := lastScreen;
      lastScreen := screen;
      if screen == Some(HomePage) && (arm.op == Some(Grind) || arm.op == Some(Pour)) && last == PageOf(arm.op.value) {
        arm := arm.(op := None);
      }
      log := log + [Polled(screen)];
    }

    method ReconcileManualOperation(t: Telemetry)
      modifies this
      ensures View() == ReconcileManual(old(View()), t)
    {
      FollowManualRun(t);
      log := log + [Observed(t)];
    }

    method FollowManualRun(t: Telemetry)
      modifies this`arm, this`run, this`log
      ensures View().(log := log + [Observed(t)]) == ReconcileManual(old(View()), t)
    {
      var op := OpOfPage(t.lastPage);
      if op.Some? && ManualRunning(op.value, t) {
        if run.active == NoRun && (arm.op == None || arm.op == op) {
          arm := arm.(op := None);
          run := run.(active := RunOf(op.value));
          log := log + [ManualRun(op.value)];
        }
        if run.active == RunOf(op.value) {
          run := run.(runSeen := true);
          if run.pauseSeen {
            run := run.(paused := false, pauseSeen := false);
          }
        }
        return;
      }
      var own := OwnPage(run.active);
      if own == None {
        run := NoManualRun(run);
      } else if t.screen != None && t.screen != own {
        run := NoManualRun(run.(active := NoRun));
      } else if t.screen == own && run.paused {
        run := run.(pauseSeen := true);
      } else if t.screen == own && run.runSeen {
        run := NoManualRun(run.(active := NoRun));
      }
    }

    /** async_pause_resume; the flags follow the command. */
    method PauseResumeRun(connected: bool, shown: Shown) returns (sent: seq<int>)
      modifies this`run, this`log
      ensures View() == Step(old(View()), PauseResume(connected, shown))
      ensures connected ==> View().log == old(log) + [PausePressed(sent)]
      ensures !connected ==> sent == []
    {
      sent := [];
      if !connected {
        return;
      }
      if arm.op == None {
        if run.active == ManualGrind || run.active == ManualPour {
          if shown.ShowsPaused? {
            sent := [if run.active == ManualGrind then 8020 else 8021];
            run := run.(pauseSeen := true);
          } else {
            sent := [if run.active == ManualGrind then 8018 else 8019];
            run := run.(paused := true, pauseSeen := false);
          }
        } else if shown.ShowsPaused? {
          sent := [40524];
        } else if shown.ShowsBusy? {
          sent := [40518];
        }
      }
      log := log + [PausePressed(sent)];
    }

    /** The part of a poll that moves arms and runs. */
    method PollStatus(t: Telemetry)
      modifies this
      ensures View() == Step(old(View()), Poll(t))
    {
      ReconcileArmedWithScreen(t.screen);
      ReconcileManualOperation(t);
    }
  }
}
