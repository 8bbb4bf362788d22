/** A cancel, and whatever else happens to the coordinator, while a one-shot execute runs: the steps
    of ArmConfirm interleaved with the run of BrewChain. The two share the armed operation, which
    waking the machine reads and a cancel clears. */
module CancelExecute {
  import opened Basics
  import opened ArmConfirm
  import BrewChain

  /** What happens to the coordinator at each time, apart from the execute. */
  type History = nat -> seq<Event>

  /** The coordinator at time u, for one that is in state `s` at time t. */
  function StateAt(s: State, h: History, t: nat, u: nat): State
    requires t <= u
    decreases u - t
  {
    if u == t then s else Run(StateAt(s, h, t, u - 1), h(u - 1))
  }

  function ArmedAt(s: State, h: History, t: nat, u: nat): bool {
    t <= u && StateAt(s, h, t, u).arm.op.Some?
  }

  /** Around an execute called at t in state `s`: the machine over either link, and the arm as the
      history leaves it. */
  function Around(s: State, h: History, t: nat, held: BrewChain.World, anew: BrewChain.World): BrewChain.Site {
    BrewChain.Site(held, anew, (u: nat) => ArmedAt(Step(s, ServiceStart(Recipe)), h, t, u))
  }

  function Execute(s: State, h: History, t: nat, held: BrewChain.World, anew: BrewChain.World, job: BrewChain.Job): BrewChain.Trace {
    BrewChain.Execute(Around(s, h, t, held, anew), t, job)
  }

  /** The machine sleeps when the execute is called at t, and through the wait after the handshake. */
  ghost predicate DoesNotWake(held: BrewChain.World, t: nat) {
    held(t).asleep && BrewChain.SleepsThrough(held, t + 1)
  }

  /** The reading of the arm, 32 steps into such a run. */
  function WaitOver(t: nat): nat { t + 2 + BrewChain.WAKE_POLLS }

  lemma ArmRead(s: State, h: History, t: nat, held: BrewChain.World, anew: BrewChain.World)
    ensures Around(s, h, t, held, anew).armed(WaitOver(t)) == StateAt(Step(s, ServiceStart(Recipe)), h, t, WaitOver(t)).arm.op.Some?
  {
  }

  /** Any two histories: the runs differ exactly if the machine does not wake and something is
      armed at the end of the wait in one history alone. */
  lemma RunsDifferIff(s: State, h: History, g: History, t: nat, held: BrewChain.World, anew: BrewChain.World, job: BrewChain.Job)
    ensures Execute(s, h, t, held, anew, job) != Execute(s, g, t, held, anew, job) <==>
            && DoesNotWake(held, t)
            && var called := Step(s, ServiceStart(Recipe));
               StateAt(called, h, t, WaitOver(t)).arm.op.Some? != StateAt(called, g, t, WaitOver(t)).arm.op.Some?
  {
    ArmRead(s, h, t, held, anew);
    ArmRead(s, g, t, held, anew);
    BrewChain.ArmIsReadOnce(Around(s, h, t, held, anew), Around(s, g, t, held, anew), t, job);
  }

  // ------------------------------------------------------------------
  // One cancel
  // ------------------------------------------------------------------

  /** g is h with a cancel at time c, somewhere among what happens then. */
  ghost predicate WithCancel(h: History, g: History, c: nat) {
    && (forall u: nat :: u != c ==> g(u) == h(u))
    && exists before: seq<Event>, cancel: Event, after: seq<Event> ::
         h(c) == before + after && cancel.Cancel? && g(c) == before + [cancel] + after
  }

  /** Events that neither arm nor disarm. Presses, connects, failures and other services are among
      them, and so are the polls of a machine that is not at home and runs nothing. */
  predicate LeavesArm(e: Event) {
    match e
    case ArmLanded(_, _) => false
    case AttemptOver(_, _, _) => false
    case WaitFailed(_) => false
    case Cancel(_, _) => false
    case Dispatch(signal) => signal !in {EasySlotStarted, GrindingStarted, BrewingStarted}
    case Poll(t) => t.screen != Some(HomePage) && !(OpOfPage(t.lastPage).Some? && ManualRunning(OpOfPage(t.lastPage).value, t))
    case _ => true
  }

  ghost predicate AllLeaveArm(events: seq<Event>) {
    forall e :: e in events ==> LeavesArm(e)
  }

  /** Nothing else arms or disarms while the wait may last. */
  ghost predicate Undisturbed(h: History, t: nat) {
    forall u :: t <= u < WaitOver(t) ==> AllLeaveArm(h(u))
  }

  lemma StepLeavesArm(s: State, e: Event)
    requires LeavesArm(e)
    ensures Step(s, e).arm == s.arm
  {
  }

  lemma {:induction false} RunLeavesArm(s: State, events: seq<Event>)
    requires AllLeaveArm(events)
    ensures Run(s, events).arm == s.arm
    decreases |events|
  {
    if events != [] {
      StepLeavesArm(s, events[0]);
      assert forall e :: e in events[1..] ==> e in events;
      RunLeavesArm(Step(s, events[0]), events[1..]);
    }
  }

  lemma {:induction false} HistoryLeavesArm(s: State, h: History, t: nat, from: nat, u: nat)
    requires t <= from <= u && forall v :: from <= v < u ==> AllLeaveArm(h(v))
    ensures StateAt(s, h, t, u).arm == StateAt(s, h, t, from).arm
    decreases u - from
  {
    if from < u {
      HistoryLeavesArm(s, h, t, from, u - 1);
      RunLeavesArm(StateAt(s, h, t, u - 1), h(u - 1));
    }
  }

  /** After the events of its moment a cancel has left nothing armed. */
  lemma CancelClears(s: State, before: seq<Event>, cancel: Event, after: seq<Event>)
    requires cancel.Cancel? && AllLeaveArm(after)
    ensures Run(s, before + [cancel] + after).arm == NO_ARM
  {
    var t := Run(s, before);
    ReachesOne(t, cancel);
    ReachesAppend(s, before, t, [cancel], Step(t, cancel));
    RunLeavesArm(Step(t, cancel), after);
    ReachesAppend(s, before + [cancel], Step(t, cancel), after, Run(Step(t, cancel), after));
  }

  lemma ArmAfterCancel(s: State, h: History, g: History, t: nat, c: nat)
    requires WithCancel(h, g, c) && Undisturbed(h, t)
    ensures StateAt(s, h, t, WaitOver(t)).arm == s.arm
    ensures StateAt(s, g, t, WaitOver(t)).arm == if t <= c < WaitOver(t) then NO_ARM else s.arm
  {
    HistoryLeavesArm(s, h, t, t, WaitOver(t));
    if t <= c < WaitOver(t) {
      var before: seq<Event>, cancel: Event, after: seq<Event> :|
        h(c) == before + after && cancel.Cancel? && g(c) == before + [cancel] + after;
      assert forall e :: e in after ==> e in h(c);
      CancelClears(StateAt(s, g, t, c), before, cancel, after);
      HistoryLeavesArm(s, g, t, c + 1, WaitOver(t));
    } else {
      HistoryLeavesArm(s, g, t, t, WaitOver(t));
    }
  }

  lemma ArmsDifferIff(s: State, h: History, g: History, t: nat, c: nat)
    requires WithCancel(h, g, c) && Undisturbed(h, t)
    ensures var called := Step(s, ServiceStart(Recipe));
            && StateAt(called, h, t, WaitOver(t)).arm.op == s.arm.op
            && StateAt(called, g, t, WaitOver(t)).arm.op == if t <= c < WaitOver(t) then None else s.arm.op
  {
    ArmAfterCancel(Step(s, ServiceStart(Recipe)), h, g, t, c);
  }

  /** A cancel does not stop a one-shot execute. It changes the run exactly if the machine sleeps
      when the service is called, the handshake does not wake it, something is armed, and the
      cancel comes before the wait is over. From the first attempt on it changes nothing. */
  lemma CancelChangesExecuteIff(s: State, h: History, g: History, t: nat, c: nat,
                                held: BrewChain.World, anew: BrewChain.World, job: BrewChain.Job)
    requires WithCancel(h, g, c) && Undisturbed(h, t)
    ensures Execute(s, h, t, held, anew, job) != Execute(s, g, t, held, anew, job) <==>
            DoesNotWake(held, t) && s.arm.op.Some? && t <= c < WaitOver(t)
  {
    RunsDifferIff(s, h, g, t, held, anew, job);
    ArmsDifferIff(s, h, g, t, c);
  }

  /** And then the cancel is what lets the brew happen. The machine hears nothing over the held
      link, and would brew over a new one: without the cancel no start is sent, with it the link
      is made anew and the start goes out. */
  lemma CancelCausesTheBrew(s: State, h: History, g: History, t: nat, c: nat,
                            held: BrewChain.World, anew: BrewChain.World, job: BrewChain.Job)
    requires WithCancel(h, g, c) && Undisturbed(h, t) && s.arm.op.Some? && t <= c < WaitOver(t)
    requires BrewChain.Deaf(held) && BrewChain.Healthy(anew) && BrewChain.Bytes(job).Some?
    ensures Execute(s, h, t, held, anew, job).outcome.TimedOut?
    ensures BrewChain.Count(Execute(s, h, t, held, anew, job).log, BrewChain.IsStart) == 0
    ensures Execute(s, g, t, held, anew, job).outcome.Done?
    ensures BrewChain.Reconnected in Execute(s, g, t, held, anew, job).log
    ensures BrewChain.Sent(BrewChain.StartCommand(job, BrewChain.Bytes(job).value)) in Execute(s, g, t, held, anew, job).log
  {
    ArmsDifferIff(s, h, g, t, c);
    BrewChain.NoBrewWhileArmed(Around(s, h, t, held, anew), t, job);
    WithoutAnArm(s, g, t, held, anew, job);
  }

  lemma WithoutAnArm(s: State, g: History, t: nat, held: BrewChain.World, anew: BrewChain.World, job: BrewChain.Job)
    requires StateAt(Step(s, ServiceStart(Recipe)), g, t, WaitOver(t)).arm.op.None?
    requires BrewChain.Deaf(held) && BrewChain.Healthy(anew) && BrewChain.Bytes(job).Some?
    ensures var run := Execute(s, g, t, held, anew, job);
            && run.outcome.Done? && BrewChain.Reconnected in run.log
            && BrewChain.Sent(BrewChain.StartCommand(job, BrewChain.Bytes(job).value)) in run.log
  {
    BrewChain.BrewsOverANewLink(Around(s, g, t, held, anew), t, job);
    var log := Execute(s, g, t, held, anew, job).log;
    assert log[3] == BrewChain.Reconnected;
    assert log[13] == BrewChain.Sent(BrewChain.StartCommand(job, BrewChain.Bytes(job).value));
  }

  /** There is such a run from a fresh start, for every job that packs: the grinder is armed, the
      machine falls asleep, and the cancel comes with any step of the wait. */
  lemma ArmedGrinderThenExecute(t: nat, c: nat, job: BrewChain.Job)
    returns (past: seq<Event>, h: History, g: History, held: BrewChain.World, anew: BrewChain.World)
    requires BrewChain.Bytes(job).Some? && t <= c < WaitOver(t)
    ensures WithCancel(h, g, c) && Undisturbed(h, t) && Run(INITIAL, past).arm.op == Some(Grind)
    ensures Execute(Run(INITIAL, past), h, t, held, anew, job).outcome.TimedOut?
    ensures BrewChain.Count(Execute(Run(INITIAL, past), h, t, held, anew, job).log, BrewChain.IsStart) == 0
    ensures BrewChain.Sent(BrewChain.StartCommand(job, BrewChain.Bytes(job).value))
            in Execute(Run(INITIAL, past), g, t, held, anew, job).log
  {
    past := [Press(Grind, true, false)] + [ArmLanded(0, None)];
    GrinderArmed();
    h := (u: nat) => [];
    g := (u: nat) => if u == c then [Cancel(true, false)] else [];
    assert h(c) == [] + [] && g(c) == [] + [Cancel(true, false)] + [];
    held := (u: nat) => BrewChain.Moment(BrewChain.Silent, true, false);
    anew := (u: nat) => BrewChain.Moment(BrewChain.Echo, false, true);
    CancelCausesTheBrew(Run(INITIAL, past), h, g, t, c, held, anew, job);
  }

  lemma GrinderArmed()
    ensures Run(INITIAL, [Press(Grind, true, false)] + [ArmLanded(0, None)]).arm.op == Some(Grind)
  {
    var pressed := Step(INITIAL, Press(Grind, true, false));
    ReachesOne(INITIAL, Press(Grind, true, false));
    ReachesOne(pressed, ArmLanded(0, None));
    ReachesAppend(INITIAL, [Press(Grind, true, false)], pressed, [ArmLanded(0, None)], Step(pressed, ArmLanded(0, None)));
  }
}
