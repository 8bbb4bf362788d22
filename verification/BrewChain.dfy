/** The one-shot brew: the ACK-gated command chains of brewing.py under the sleep-retry wrapper
    of coordinator/connection.py. Everything outside the program (echoes, write errors, the
    sleep flag, the machine's start sign) is an arbitrary function of time. */
module BrewChain {
  import opened Basics
  import opened Numbers
  import opened Payload
  import opened Tea

  const MAX_ATTEMPTS := 3

  datatype Command =
    | BackToHome
    | SetBypass(volume: real, temperatureTenths: real, dose: int)
    | SetCup(max: real, min: real)
    | RecipeSend(auto: bool, recipe: seq<byte>)
    | RecipeExecute
    | TeaRecipeCode(code: seq<byte>)
    | TeaRecipeMake(make: seq<byte>)

  function Id(c: Command): int {
    match c
    case BackToHome => 8022
    case SetBypass(_, _, _) => 8102
    case SetCup(_, _) => 8104
    case RecipeSend(auto, _) => if auto then 8001 else 8004
    case RecipeExecute => 8002
    case TeaRecipeCode(_) => 4513
    case TeaRecipeMake(_) => 4512
  }

  /** The commands that set water or a motor going. */
  predicate Starts(c: Command) { c.RecipeExecute? || c.TeaRecipeMake? }

  /** What a write meets: no link, a failing write, silence until the deadline (a link lost while
      waiting ends the wait the same way), or the echo of its id. */
  datatype Reply = Unconnected | WriteError | Silent | Echo

  datatype Moment = Moment(reply: Reply, asleep: bool, underway: bool)

  /** What the machine does over one link. */
  type World = nat -> Moment

  /** Around a run: the machine over the link that is held and over one made anew, and, at every
      time, whether an operation is armed. */
  datatype Site = Site(held: World, anew: World, armed: nat -> bool)

  datatype Entry =
    | Attempt
    | Sent(command: Command)
    | Echoed(id: int)
    | StartSign(underway: bool) // what the machine's own state says after 8002
    | SleepRead(asleep: bool)
    | Raised                    // an exception that nothing retries
    | Handshake                 // 8100 on the held link
    | Waited(awake: bool)       // the verdict of the wait for the machine to wake
    | Reconnected

  /** `TimedOut` is AckTimeout; `Failed` is any other exception, which nothing retries. */
  datatype Outcome = Done | TimedOut | Failed

  datatype Trace = Trace(log: seq<Entry>, now: nat, outcome: Outcome)

  /** A recipe as prepared for execution. */
  datatype Job = Job(recipe: Recipe, bypassVolume: real, bypassTemperature: real)

  predicate IsTea(r: Recipe) { r.cupType == TEA_CUP }

  predicate Grinding(r: Recipe) { r.grindSize > 0 && r.beanWeight > 0.0 }

  function Dose(r: Recipe): int { if r.beanWeight > 0.0 then Trunc(r.beanWeight) else 0 }

  function CupBounds(r: Recipe): (real, real) {
    if r.cupType !in {1, 2, 3} then (90.0, 40.0)
    else (if r.cupType == 1 then 80.0 else 90.0, if Grinding(r) then 40.0 else 0.0)
  }

  /** The settings sent before the recipe itself. */
  function Prelude(job: Job): (r: seq<Command>)
    ensures |r| == 3
  {
    if IsTea(job.recipe) then
      [BackToHome, SetBypass(0.0, 0.0, 0), SetCup(200.0, 0.0)]
    else
      [BackToHome,
       SetBypass(job.bypassVolume, job.bypassTemperature * 10.0, Dose(job.recipe)),
       SetCup(CupBounds(job.recipe).0, CupBounds(job.recipe).1)]
  }

  function Bytes(job: Job): Option<seq<byte>> {
    if IsTea(job.recipe) then TeaPayload(job.recipe) else CoffeePayload(job.recipe)
  }

  function RecipeCommand(job: Job, bytes: seq<byte>): Command {
    if IsTea(job.recipe) then TeaRecipeCode(bytes) else RecipeSend(Grinding(job.recipe), bytes)
  }

  function StartCommand(job: Job, bytes: seq<byte>): Command {
    if IsTea(job.recipe) then TeaRecipeMake(bytes) else RecipeExecute
  }

  /** What async_arm_recipe hands back when it succeeds: nothing for coffee, the acknowledged
      bytes for tea. */
  predicate ArmReturns(job: Job, returned: Option<seq<byte>>) {
    Bytes(job).Some? && returned == if IsTea(job.recipe) then Bytes(job) else None
  }

  // ------------------------------------------------------------------
  // Reference runs
  // ------------------------------------------------------------------

  function Send(w: World, t: nat, c: Command): Trace {
    match w(t).reply
    case Unconnected => Trace([], t + 1, Failed)
    case WriteError => Trace([Sent(c)], t + 1, Failed)
    case Silent => Trace([Sent(c)], t + 1, TimedOut)
    case Echo => Trace([Sent(c), Echoed(Id(c))], t + 1, Done)
  }

  /** One trace, then another if the first succeeded. */
  function Then(first: Trace, second: Trace): Trace {
    if first.outcome.Done? then second.(log := first.log + second.log) else first
  }

  function Chain(w: World, t: nat, steps: seq<Command>): Trace
    decreases |steps|
  {
    if steps == [] then Trace([], t, Done)
    else
      var first := Send(w, t, steps[0]);
      Then(first, Chain(w, first.now, steps[1..]))
  }

  lemma ChainOfThree(w: World, t: nat, steps: seq<Command>)
    requires |steps| == 3
    ensures var first := Send(w, t, steps[0]);
            var second := Send(w, first.now, steps[1]);
            Chain(w, t, steps) == Then(first, Then(second, Send(w, second.now, steps[2])))
  {
    var first := Send(w, t, steps[0]);
    var second := Send(w, first.now, steps[1]);
    var third := Send(w, second.now, steps[2]);
    assert steps[1..][0] == steps[1] && steps[1..][1..] == steps[2..];
    assert steps[2..][0] == steps[2] && steps[2..][1..] == [];
    assert Chain(w, third.now, []) == Trace([], third.now, Done);
    assert third.log + [] == third.log;
    assert Chain(w, second.now, steps[2..]) == third;
    assert Chain(w, first.now, steps[1..]) == Then(second, third);
  }

  function Arm(w: World, t: nat, job: Job): Trace {
    if w(t).reply.Unconnected? then Trace([], t + 1, Failed)
    else
      var prelude := Chain(w, t + 1, Prelude(job));
      Then(prelude,
           match Bytes(job)
           case None => Trace([], prelude.now, Failed)
           case Some(bytes) => Send(w, prelude.now, RecipeCommand(job, bytes)))
  }

  /** 8002 is not gated on its echo; the machine's own start sign decides. 4512 is gated. */
  function Start(w: World, t: nat, job: Job, bytes: seq<byte>): Trace {
    var c := StartCommand(job, bytes);
    if IsTea(job.recipe) then Send(w, t, c)
    else
      match w(t).reply
      case Unconnected => Trace([], t + 1, Failed)
      case WriteError => Trace([Sent(c)], t + 1, Failed)
      case _ => Trace([Sent(c), StartSign(w(t + 1).underway)], t + 2, if w(t + 1).underway then Done else Failed)
  }

  function Brew(w: World, t: nat, job: Job): Trace {
    var arm := Arm(w, t, job);
    Then(arm, match Bytes(job)
              case None => Trace([], arm.now, Failed)
              case Some(bytes) => Start(w, arm.now, job, bytes))
  }

  function Prepend(log: seq<Entry>, t: Trace): Trace { t.(log := log + t.log) }

  /** Whether the retry loop goes round again: after a timeout while the machine was asleep at the
      start or is now, or after a success with the machine still asleep; three times at most. */
  predicate Again(outcome: Outcome, asleep: bool, sleeping: bool, attempt: int) {
    && attempt < MAX_ATTEMPTS
    && match outcome
       case Failed => false
       case TimedOut => asleep || sleeping
       case Done => sleeping
  }

  /** What the loop does after an action: it reads the sleep flag unless the verdict is clear. */
  function Judged(w: World, t: nat, outcome: Outcome, asleep: bool, attempt: int): (Trace, bool)
    requires attempt <= MAX_ATTEMPTS
  {
    var sleeping := w(t).asleep;
    var again := Again(outcome, asleep, sleeping, attempt);
    match outcome
    case Failed => (Trace([Raised], t, Failed), again)
    case TimedOut =>
      if attempt == MAX_ATTEMPTS then (Trace([], t, TimedOut), again)
      else if asleep then (Trace([], t + 1, TimedOut), again)
      else (Trace([SleepRead(sleeping)], t + 1, TimedOut), again)
    case Done => (Trace([SleepRead(sleeping)], t + 1, Done), again)
  }

  /** An action the retry loop can run: its trace from a given time. */
  type Action = nat -> Trace

  function Try(w: World, t: nat, action: Action, asleep: bool, attempt: int): (Trace, bool)
    requires attempt <= MAX_ATTEMPTS
  {
    var run := action(t);
    var (judged, again) := Judged(w, run.now, run.outcome, asleep, attempt);
    (Prepend([Attempt] + run.log, judged), again)
  }

  function Retry(w: World, t: nat, action: Action, asleep: bool, attempt: int): Trace
    requires 1 <= attempt <= MAX_ATTEMPTS
    decreases MAX_ATTEMPTS - attempt, t
  {
    var (tried, again) := Try(w, t, action, asleep, attempt);
    if again
    then Prepend(tried.log, Retry(w, tried.now, action, asleep, attempt + 1))
    else tried
  }

  function Brewing(w: World, job: Job): Action { (t: nat) => Brew(w, t, job) }

  // Waking a machine that reads asleep.

  /** The wait reads the flag and then, while it says asleep, up to this many times more. */
  const WAKE_POLLS := 30

  /** When a wait ends: at the first reading that is awake, or at the last one. */
  function WaitEnd(w: World, t: nat, last: nat): (r: nat)
    requires t <= last
    ensures t <= r <= last
    decreases last - t
  {
    if !w(t).asleep || t == last then t else WaitEnd(w, t + 1, last)
  }

  /** A run that wakes the machine first: the log of waking it, the link afterwards, and when. */
  datatype Awakening = Awakening(log: seq<Entry>, world: World, now: nat)

  /** The last reading of a wake that begins at t; the arm is read with it. */
  function LastReading(w: World, t: nat): (r: nat)
    ensures t < r <= t + 1 + WAKE_POLLS
  {
    WaitEnd(w, t + 1, t + 1 + WAKE_POLLS)
  }

  function HandshakeLog(w: World, t: nat): seq<Entry> {
    if w(t).reply.Unconnected? then [] else [Handshake]
  }

  /** _async_wake_machine: the handshake, the wait, and a new link unless an operation is armed. */
  function Wake(site: Site, t: nat): Awakening {
    var end := LastReading(site.held, t);
    var log := HandshakeLog(site.held, t) + [Waited(!site.held(end).asleep)];
    if !site.held(end).asleep || site.armed(end) then Awakening(log, site.held, end + 1)
    else Awakening(log + [Reconnected], site.anew, end + 2)
  }

  function WokenIfAsleep(site: Site, t: nat): Awakening {
    var asleep := site.held(t).asleep;
    if asleep then
      var wake := Wake(site, t + 1);
      wake.(log := [SleepRead(true)] + wake.log)
    else Awakening([SleepRead(false)], site.held, t + 1)
  }

  /** _async_retry_while_sleeping around the brew. */
  function Execute(site: Site, t: nat, job: Job): Trace {
    var woken := WokenIfAsleep(site, t);
    Prepend(woken.log, Rounds(woken.world, woken.now, job, site.held(t).asleep))
  }

  function Arming(w: World, job: Job): Action { (t: nat) => Arm(w, t, job) }

  /** _async_retry_while_sleeping around the arm alone. */
  function ArmRun(site: Site, t: nat, job: Job): Trace {
    var woken := WokenIfAsleep(site, t);
    Prepend(woken.log, Retry(woken.world, woken.now, Arming(woken.world, job), site.held(t).asleep, 1))
  }

  function Rounds(w: World, t: nat, job: Job, asleep: bool): Trace {
    Retry(w, t, Brewing(w, job), asleep, 1)
  }

  lemma Associative(a: seq<Entry>, b: seq<Entry>, c: seq<Entry>)
    ensures a + (b + c) == (a + b) + c
  {
  }

  // ------------------------------------------------------------------
  // The program
  // ------------------------------------------------------------------

  class Coordinator {
    var world: World            // the machine over the current link
    const anew: World
    const armed: nat -> bool
    var now: nat
    var log: seq<Entry>

    constructor (site: Site)
      ensures Around() == site && now == 0 && log == []
    {
      world, anew, armed := site.held, site.anew, site.armed;
      now, log := 0, [];
    }

    ghost function Around(): Site
      reads this`world
    {
      Site(world, anew, armed)
    }

    /** The program has run exactly the trace `t` since the log was `before`. */
    ghost predicate Ran(before: seq<Entry>, t: Trace, outcome: Outcome)
      reads this
    {
      log == before + t.log && now == t.now && outcome == t.outcome
    }

    method SendAndWait(c: Command) returns (outcome: Outcome)
      modifies this`now, this`log
      ensures Ran(old(log), Send(world, old(now), c), outcome)
    {
      var reply := world(now).reply;
      now := now + 1;
      if reply.Unconnected? {
        return Failed;
      }
      log := log + [Sent(c)];
      if reply.WriteError? {
        return Failed;
      }
      if reply.Silent? {
        return TimedOut;
      }
      log := log + [Echoed(Id(c))];
      return Done;
    }

    /** The ACK-gated settings both chains share in form: 8022, 8102, 8104. */
    method SendPrelude(job: Job) returns (outcome: Outcome)
      modifies this`now, this`log
      ensures Ran(old(log), Chain(world, old(now), Prelude(job)), outcome)
    {
      var steps := Prelude(job);
      ChainOfThree(world, now, steps);
      outcome := SendAndWait(steps[0]);
      if !outcome.Done? {
        return;
      }
      outcome := SendAndWait(steps[1]);
      if !outcome.Done? {
        return;
      }
      outcome := SendAndWait(steps[2]);
    }

    /** _async_arm_coffee. */
    method ArmCoffee(job: Job) returns (outcome: Outcome)
      requires !IsTea(job.recipe)
      modifies this`now, this`log
      ensures Ran(old(log), Arm(world, old(now), job), outcome)
    {
      var reply := world(now).reply;
      now := now + 1;
      if reply.Unconnected? {
        return Failed;
      }
      outcome := SendPrelude(job);
      if !outcome.Done? {
        return;
      }
      var payload := BuildCoffeeRecipePayload(job.recipe);
      if payload.None? {
        return Failed;
      }
      outcome := SendAndWait(RecipeSend(Grinding(job.recipe), payload.value));
    }

    /** _async_arm_tea: hands the acknowledged bytes back. */
    method ArmTea(job: Job) returns (outcome: Outcome, payload: seq<byte>)
      requires IsTea(job.recipe)
      modifies this`now, this`log
      ensures Ran(old(log), Arm(world, old(now), job), outcome)
      ensures outcome.Done? ==> Bytes(job) == Some(payload)
    {
      payload := [];
      var reply := world(now).reply;
      now := now + 1;
      if reply.Unconnected? {
        return Failed, payload;
      }
      outcome := SendPrelude(job);
      if !outcome.Done? {
        return;
      }
      var built := BuildTeaPayload(job.recipe);
      if built.None? {
        return Failed, payload;
      }
      payload := built.value;
      outcome := SendAndWait(TeaRecipeCode(payload));
    }

    /** async_arm_recipe of brewing.py. */
    method ArmRecipe(job: Job) returns (outcome: Outcome, returned: Option<seq<byte>>)
      modifies this`now, this`log
      ensures Ran(old(log), Arm(world, old(now), job), outcome)
      ensures outcome.Done? ==> ArmReturns(job, returned)
    {
      returned := None;
      if IsTea(job.recipe) {
        var payload;
        outcome, payload := ArmTea(job);
        if outcome.Done? {
          returned := Some(payload);
        }
      } else {
        outcome := ArmCoffee(job);
        assert outcome.Done? ==> Bytes(job).Some?;
      }
    }

    /** _async_brew_coffee. */
    method BrewCoffee(job: Job) returns (outcome: Outcome)
      requires !IsTea(job.recipe)
      modifies this`now, this`log
      ensures Ran(old(log), Brew(world, old(now), job), outcome)
    {
      outcome := ArmCoffee(job);
      if !outcome.Done? {
        return;
      }
      ghost var arm, bytes := Arm(world, old(now), job), Bytes(job).value;
      ghost var start := Start(world, now, job, bytes);
      Associative(old(log), arm.log, start.log);
      outcome := StartCoffee(job, bytes);
    }

    /** 8002 and _async_verify_brew_started. */
    method StartCoffee(job: Job, ghost bytes: seq<byte>) returns (outcome: Outcome)
      requires !IsTea(job.recipe)
      modifies this`now, this`log
      ensures Ran(old(log), Start(world, old(now), job, bytes), outcome)
    {
      var reply := world(now).reply;
      now := now + 1;
      if reply.Unconnected? {
        return Failed;
      }
      log := log + [Sent(RecipeExecute)];
      if reply.WriteError? {
        return Failed;
      }
      var underway := world(now).underway;
      log := log + [StartSign(underway)];
      now := now + 1;
      outcome := if underway then Done else Failed;
    }

    /** _async_brew_tea. */
    method BrewTea(job: Job) returns (outcome: Outcome)
      requires IsTea(job.recipe)
      modifies this`now, this`log
      ensures Ran(old(log), Brew(world, old(now), job), outcome)
    {
      var payload;
      outcome, payload := ArmTea(job);
      if !outcome.Done? {
        return;
      }
      outcome := SendAndWait(TeaRecipeMake(payload));
    }

    /** async_execute_recipe of brewing.py. */
    method BrewRecipe(job: Job) returns (outcome: Outcome)
      modifies this`now, this`log
      ensures Ran(old(log), Brew(world, old(now), job), outcome)
    {
      if IsTea(job.recipe) {
        outcome := BrewTea(job);
      } else {
        outcome := BrewCoffee(job);
      }
    }

    method Judge(ran: Outcome, asleep: bool, attempt: int) returns (outcome: Outcome, again: bool)
      requires attempt <= MAX_ATTEMPTS
      modifies this`now, this`log
      ensures var judged := Judged(world, old(now), ran, asleep, attempt);
              Ran(old(log), judged.0, outcome) && again == judged.1
    {
      if ran.Failed? {
        log := log + [Raised];
        return ran, false;
      }
      if ran.TimedOut? && attempt == MAX_ATTEMPTS {
        return ran, false;
      }
      if ran.TimedOut? && asleep {
        now := now + 1;
        return ran, true;
      }
      var sleeping := world(now).asleep;
      log := log + [SleepRead(sleeping)];
      now := now + 1;
      return ran, sleeping && attempt < MAX_ATTEMPTS;
    }

    /** The action is the trace of brewing the job, at any time. Stated over `Brew` so that only a
        proof that speaks of brewing looks inside. */
    ghost predicate Brews(action: Action, job: Job)
      reads this`world
    {
      forall t: nat {:trigger Brew(world, t, job)} :: action(t) == Brew(world, t, job)
    }

    /** The action itself. */
    method RunAction(job: Job, ghost action: Action) returns (outcome: Outcome)
      requires Brews(action, job)
      modifies this`now, this`log
      ensures Ran(old(log), action(old(now)), outcome)
    {
      outcome := BrewRecipe(job);
    }

    /** The body of the retry loop. */
    method TryOnce(job: Job, ghost action: Action, asleep: bool, attempt: int) returns (outcome: Outcome, again: bool)
      requires attempt <= MAX_ATTEMPTS && Brews(action, job)
      modifies this`now, this`log
      ensures var tried := Try(world, old(now), action, asleep, attempt);
              Ran(old(log), tried.0, outcome) && again == tried.1
    {
      ghost var before, run := log, action(now);
      log := log + [Attempt];
      outcome := RunAction(job, action);
      ghost var judged := Judged(world, run.now, run.outcome, asleep, attempt).0;
      outcome, again := Judge(outcome, asleep, attempt);
      assert log == before + (([Attempt] + run.log) + judged.log);
    }

    /** The loop of _async_retry_while_sleeping. */
    method RetryFrom(job: Job, ghost action: Action, asleep: bool, first: int) returns (outcome: Outcome)
      requires 1 <= first <= MAX_ATTEMPTS && Brews(action, job)
      modifies this`now, this`log
      ensures Ran(old(log), Retry(world, old(now), action, asleep, first), outcome)
    {
      ghost var before, whole := log, Retry(world, now, action, asleep, first);
      var attempt, again := first, true;
      outcome := Done;
      while again
        invariant first <= attempt && (again ==> attempt <= MAX_ATTEMPTS)
        invariant again ==> Rest(before, whole, Retry(world, now, action, asleep, attempt))
        invariant !again ==> Ran(before, whole, outcome)
        decreases again, MAX_ATTEMPTS - attempt
      {
        ghost var done, tried := log, Try(world, now, action, asleep, attempt).0;
        outcome, again := TryOnce(job, action, asleep, attempt);
        if again {
          Associative(done, tried.log, Retry(world, now, action, asleep, attempt + 1).log);
        }
        attempt := attempt + 1;
      }
    }

    /** `rest` is what remains of `whole`. */
    ghost predicate Rest(before: seq<Entry>, whole: Trace, rest: Trace)
      reads this
    {
      log + rest.log == before + whole.log && rest.now == whole.now && rest.outcome == whole.outcome
    }

    /** async_send_handshake. */
    method SendHandshake()
      modifies this`now, this`log
      ensures log == old(log) + HandshakeLog(world, old(now)) && now == old(now) + 1
    {
      if !world(now).reply.Unconnected? {
        log := log + [Handshake];
      }
      now := now + 1;
    }

    /** _async_wait_awake: the flag is read until `last`. */
    method WaitAwake(ghost last: nat) returns (awake: bool)
      requires last == now + WAKE_POLLS
      modifies this`now
      ensures now == WaitEnd(world, old(now), last) + 1
      ensures awake == !world(now - 1).asleep
    {
      var polls := WAKE_POLLS;
      while polls > 0
        invariant 0 <= polls && now + polls == last
        invariant WaitEnd(world, now, last) == WaitEnd(world, old(now), last)
      {
        if !world(now).asleep {
          now := now + 1;
          return true;
        }
        now := now + 1;
        polls := polls - 1;
      }
      awake := !world(now).asleep;
      now := now + 1;
    }

    /** _async_wake_machine. The arm is read with the last reading of the flag. */
    method WakeMachine()
      modifies this
      ensures var wake := Wake(old(Around()), old(now));
              log == old(log) + wake.log && world == wake.world && now == wake.now
    {
      ghost var before, end := log, LastReading(world, now);
      SendHandshake();
      var awake := WaitAwake(now + WAKE_POLLS);
      log := log + [Waited(awake)];
      assert now == end + 1 && log == before + (HandshakeLog(world, old(now)) + [Waited(!world(end).asleep)]);
      if awake || armed(now - 1) {
        return;
      }
      world := anew;
      log := log + [Reconnected];
      now := now + 1;
    }

    /** The head of _async_retry_while_sleeping. */
    method WakeIfAsleep() returns (asleep: bool)
      modifies this
      ensures var woken := WokenIfAsleep(old(Around()), old(now));
              log == old(log) + woken.log && world == woken.world && now == woken.now
      ensures asleep == old(world(now).asleep)
    {
      asleep := world(now).asleep;
      log := log + [SleepRead(asleep)];
      now := now + 1;
      if asleep {
        WakeMachine();
      }
    }

    /** The action is the trace of arming the job, at any time. */
    ghost predicate Arms(action: Action, job: Job)
      reads this`world
    {
      forall t: nat {:trigger Arm(world, t, job)} :: action(t) == Arm(world, t, job)
    }

    method RunArm(job: Job, ghost action: Action) returns (outcome: Outcome, returned: Option<seq<byte>>)
      requires Arms(action, job)
      modifies this`now, this`log
      ensures Ran(old(log), action(old(now)), outcome)
      ensures outcome.Done? ==> ArmReturns(job, returned)
    {
      outcome, returned := ArmRecipe(job);
    }

    /** The body of the retry loop around an arm. */
    method TryArm(job: Job, ghost action: Action, asleep: bool, attempt: int)
      returns (outcome: Outcome, returned: Option<seq<byte>>, again: bool)
      requires attempt <= MAX_ATTEMPTS && Arms(action, job)
      modifies this`now, this`log
      ensures var tried := Try(world, old(now), action, asleep, attempt);
              Ran(old(log), tried.0, outcome) && again == tried.1
      ensures outcome.Done? ==> ArmReturns(job, returned)
    {
      ghost var before, run := log, action(now);
      log := log + [Attempt];
      outcome, returned := RunArm(job, action);
      ghost var judged := Judged(world, run.now, run.outcome, asleep, attempt).0;
      outcome, again := Judge(outcome, asleep, attempt);
      assert log == before + (([Attempt] + run.log) + judged.log);
    }

    /** The loop of _async_retry_while_sleeping around an arm: the last call's result comes back. */
    method ArmFrom(job: Job, ghost action: Action, asleep: bool, first: int) returns (outcome: Outcome, returned: Option<seq<byte>>)
      requires 1 <= first <= MAX_ATTEMPTS && Arms(action, job)
      modifies this`now, this`log
      ensures Ran(old(log), Retry(world, old(now), action, asleep, first), outcome)
      ensures outcome.Done? ==> ArmReturns(job, returned)
    {
      ghost var before, whole := log, Retry(world, now, action, asleep, first);
      var attempt, again := first, true;
      outcome, returned := Failed, None;
      while again
        invariant first <= attempt && (again ==> attempt <= MAX_ATTEMPTS)
        invariant again ==> Rest(before, whole, Retry(world, now, action, asleep, attempt))
        invariant !again ==> Ran(before, whole, outcome)
        invariant outcome.Done? ==> ArmReturns(job, returned)
        decreases again, MAX_ATTEMPTS - attempt
      {
        ghost var done, tried := log, Try(world, now, action, asleep, attempt).0;
        outcome, returned, again := TryArm(job, action, asleep, attempt);
        if again {
          Associative(done, tried.log, Retry(world, now, action, asleep, attempt + 1).log);
        }
        attempt := attempt + 1;
      }
    }

    /** async_arm_recipe under the sleep retry. */
    method ArmWhileSleeping(job: Job) returns (outcome: Outcome, returned: Option<seq<byte>>)
      modifies this
      ensures Ran(old(log), ArmRun(old(Around()), old(now), job), outcome)
      ensures outcome.Done? ==> ArmReturns(job, returned)
    {
      ghost var before, woken := log, WokenIfAsleep(Around(), now);
      var asleep := WakeIfAsleep();
      Associative(before, woken.log, Retry(world, now, Arming(world, job), asleep, 1).log);
      outcome, returned := ArmFrom(job, Arming(world, job), asleep, 1);
    }

    /** The execute service: the brew under the sleep retry. */
    method ExecuteRecipe(job: Job) returns (outcome: Outcome)
      modifies this
      ensures Ran(old(log), Execute(old(Around()), old(now), job), outcome)
    {
      ghost var before, woken := log, WokenIfAsleep(Around(), now);
      var asleep := WakeIfAsleep();
      Associative(before, woken.log, Rounds(world, now, job, asleep).log);
      outcome := RunRounds(job, asleep);
    }

    method RunRounds(job: Job, asleep: bool) returns (outcome: Outcome)
      modifies this`now, this`log
      ensures Ran(old(log), Rounds(world, old(now), job, asleep), outcome)
    {
      outcome := RetryFrom(job, Brewing(world, job), asleep, 1);
    }
  }

  // ------------------------------------------------------------------
  // Every start is gated
  // ------------------------------------------------------------------

  predicate IsStart(e: Entry) { e.Sent? && Starts(e.command) }

  function Acked(c: Command): seq<Entry> { [Sent(c), Echoed(Id(c))] }

  /** The four steps of an attempt, each echoed before the next is sent. */
  function AckedSteps(job: Job, bytes: seq<byte>): (r: seq<Entry>)
    ensures |r| == 8
  {
    var p := Prelude(job);
    Acked(p[0]) + (Acked(p[1]) + Acked(p[2])) + Acked(RecipeCommand(job, bytes))
  }

  /** Entry i starts the brew of `job`, and right before it stand the marker of its attempt and
      the four echoed steps of that attempt. */
  predicate Gated(job: Job, log: seq<Entry>, i: nat)
    requires i < |log|
  {
    && Bytes(job).Some?
    && log[i] == Sent(StartCommand(job, Bytes(job).value))
    && 9 <= i
    && log[i - 9..i] == [Attempt] + AckedSteps(job, Bytes(job).value)
  }

  predicate StartsGated(job: Job, log: seq<Entry>) {
    forall i :: 0 <= i < |log| && IsStart(log[i]) ==> Gated(job, log, i)
  }

  predicate Quiet(log: seq<Entry>) {
    forall i :: 0 <= i < |log| ==> !IsStart(log[i]) && (log[i].Sent? || log[i].Echoed?)
  }

  lemma GatedAppend(job: Job, a: seq<Entry>, b: seq<Entry>)
    requires StartsGated(job, a) && StartsGated(job, b)
    ensures StartsGated(job, a + b)
  {
  }

  lemma SendShape(w: World, t: nat, c: Command)
    requires !Starts(c)
    ensures Quiet(Send(w, t, c).log) && (Send(w, t, c).outcome.Done? ==> Send(w, t, c).log == Acked(c))
  {
  }

  lemma ThenShape(first: Trace, second: Trace)
    requires Quiet(first.log) && Quiet(second.log)
    ensures Quiet(Then(first, second).log)
    ensures Then(first, second).outcome.Done? ==>
              first.outcome.Done? && second.outcome.Done? && Then(first, second).log == first.log + second.log
  {
    QuietAppend(first.log, second.log);
  }

  lemma PreludeShape(w: World, t: nat, steps: seq<Command>)
    requires |steps| == 3 && forall i :: 0 <= i < 3 ==> !Starts(steps[i])
    ensures Quiet(Chain(w, t, steps).log)
    ensures Chain(w, t, steps).outcome.Done? ==>
              Chain(w, t, steps).log == Acked(steps[0]) + (Acked(steps[1]) + Acked(steps[2]))
  {
    ChainOfThree(w, t, steps);
    var first := Send(w, t, steps[0]);
    var second := Send(w, first.now, steps[1]);
    var third := Send(w, second.now, steps[2]);
    SendShape(w, t, steps[0]);
    SendShape(w, first.now, steps[1]);
    SendShape(w, second.now, steps[2]);
    ThenShape(second, third);
    ThenShape(first, Then(second, third));
  }

  lemma QuietAppend(a: seq<Entry>, b: seq<Entry>)
    requires Quiet(a) && Quiet(b)
    ensures Quiet(a + b)
  {
  }

  /** An attempt that fails while arming sends no start; one that arms has its four echoes. */
  lemma ArmShape(w: World, t: nat, job: Job)
    ensures Quiet(Arm(w, t, job).log)
    ensures Arm(w, t, job).outcome.Done? ==>
              Bytes(job).Some? && Arm(w, t, job).log == AckedSteps(job, Bytes(job).value)
  {
    var prelude := Chain(w, t + 1, Prelude(job));
    PreludeShape(w, t + 1, Prelude(job));
    if prelude.outcome.Done? && Bytes(job).Some? {
      QuietAppend(prelude.log, Send(w, prelude.now, RecipeCommand(job, Bytes(job).value)).log);
    } else {
      assert prelude.log + [] == prelude.log;
    }
  }

  /** What starting can put in the log. */
  predicate StartLog(job: Job, bytes: seq<byte>, log: seq<Entry>) {
    log != [] ==>
      && log[0] == Sent(StartCommand(job, bytes))
      && forall i :: 1 <= i < |log| ==> Answers(log[i])
  }

  /** What follows a start: its echo, or the machine's own sign. */
  predicate Answers(e: Entry) { e.Echoed? || e.StartSign? }

  lemma StartShape(w: World, t: nat, job: Job, bytes: seq<byte>)
    ensures StartLog(job, bytes, Start(w, t, job, bytes).log)
    ensures Start(w, t, job, bytes).outcome.Done? ==> Start(w, t, job, bytes).log != []
  {
  }

  // ------------------------------------------------------------------
  // Counting
  // ------------------------------------------------------------------

  predicate IsAttempt(e: Entry) { e.Attempt? }

  function Count(log: seq<Entry>, p: Entry -> bool): nat {
    if log == [] then 0 else Count(log[..|log| - 1], p) + (if p(log[|log| - 1]) then 1 else 0)
  }

  lemma {:induction false} CountAppend(a: seq<Entry>, b: seq<Entry>, p: Entry -> bool)
    ensures Count(a + b, p) == Count(a, p) + Count(b, p)
  {
    if b == [] {
      assert a + b == a;
    } else {
      var front := b[..|b| - 1];
      assert (a + b)[..|a + b| - 1] == a + front;
      CountAppend(a, front, p);
    }
  }

  lemma {:induction false} CountNone(log: seq<Entry>, p: Entry -> bool)
    requires forall i :: 0 <= i < |log| ==> !p(log[i])
    ensures Count(log, p) == 0
  {
    if log != [] {
      CountNone(log[..|log| - 1], p);
    }
  }

  /** What the retry loop relies on: an action marks no attempt of its own, starts at most once,
      and only behind its gate. */
  predicate Disciplined(job: Job, log: seq<Entry>) {
    && StartsGated(job, [Attempt] + log)
    && Count(log, IsStart) <= 1
    && Count(log, IsAttempt) == 0
    && forall i :: 0 <= i < |log| ==> log[i].Sent? || Answers(log[i])
  }

  lemma BrewDisciplined(w: World, t: nat, job: Job)
    ensures Disciplined(job, Brew(w, t, job).log)
    ensures Brew(w, t, job).outcome.Done? ==> Count(Brew(w, t, job).log, IsStart) == 1
  {
    var arm := Arm(w, t, job);
    ArmShape(w, t, job);
    CountNone(arm.log, IsStart);
    CountNone(arm.log, IsAttempt);
    if arm.outcome.Done? {
      StartShape(w, arm.now, job, Bytes(job).value);
      StartDisciplined(job, Start(w, arm.now, job, Bytes(job).value).log);
    } else {
      assert Brew(w, t, job) == arm;
    }
  }

  lemma StartDisciplined(job: Job, start: seq<Entry>)
    requires Bytes(job).Some?
    requires StartLog(job, Bytes(job).value, start)
    ensures Disciplined(job, AckedSteps(job, Bytes(job).value) + start)
    ensures Count(AckedSteps(job, Bytes(job).value) + start, IsStart) == if start == [] then 0 else 1
  {
    var acked := AckedSteps(job, Bytes(job).value);
    StartCounted(acked, start);
    forall i | 0 <= i < |[Attempt] + (acked + start)| && IsStart(([Attempt] + (acked + start))[i])
      ensures Gated(job, [Attempt] + (acked + start), i)
    {
      OnlyStart(acked, start, i);
    }
  }

  lemma OnlyStart(acked: seq<Entry>, start: seq<Entry>, i: nat)
    requires |acked| == 8 && Quiet(acked) && forall j :: 1 <= j < |start| ==> Answers(start[j])
    requires i < |[Attempt] + (acked + start)| && IsStart(([Attempt] + (acked + start))[i])
    ensures i == 9 && ([Attempt] + (acked + start))[0..9] == [Attempt] + acked
  {
  }

  lemma StartCounted(acked: seq<Entry>, start: seq<Entry>)
    requires Quiet(acked)
    requires start != [] ==> IsStart(start[0]) && forall j :: 1 <= j < |start| ==> Answers(start[j])
    ensures Count(acked + start, IsStart) == (if start == [] then 0 else 1)
    ensures Count(acked + start, IsAttempt) == 0
  {
    CountNone(acked, IsStart);
    CountNone(acked + start, IsAttempt);
    CountAppend(acked, start, IsStart);
    if start != [] {
      assert start == [start[0]] + start[1..];
      CountAppend([start[0]], start[1..], IsStart);
      CountNone(start[1..], IsStart);
      assert Count([start[0]], IsStart) == Count([], IsStart) + 1;
    }
  }

  // ------------------------------------------------------------------
  // The retry loop
  // ------------------------------------------------------------------

  ghost predicate AlwaysDisciplined(job: Job, action: Action) {
    forall t: nat :: Disciplined(job, action(t).log)
  }

  /** Every attempt after the first follows a reading of the sleep flag that said asleep: the one
      the loop began with, or the one just before the attempt. */
  predicate RetriesExplained(asleep: bool, log: seq<Entry>) {
    forall i :: 0 < i < |log| && log[i].Attempt? ==> asleep || log[i - 1] == SleepRead(true)
  }

  /** The log of a retry loop that may run `most` attempts. */
  predicate RetryLog(job: Job, asleep: bool, log: seq<Entry>, most: int) {
    && StartsGated(job, log)
    && log != [] && log[0].Attempt?
    && 1 <= Count(log, IsAttempt) <= most
    && Count(log, IsStart) <= Count(log, IsAttempt)
    && RetriesExplained(asleep, log)
    && NoWake(log)
  }

  predicate NoWake(log: seq<Entry>) {
    forall i :: 0 <= i < |log| ==> !log[i].Handshake? && !log[i].Waited? && !log[i].Reconnected?
  }

  predicate EndsAsleep(asleep: bool, log: seq<Entry>) {
    asleep || (log != [] && log[|log| - 1] == SleepRead(true))
  }

  lemma TryShape(w: World, t: nat, action: Action, job: Job, asleep: bool, attempt: int)
    requires attempt <= MAX_ATTEMPTS && Disciplined(job, action(t).log)
    ensures var (tried, again) := Try(w, t, action, asleep, attempt);
            RetryLog(job, asleep, tried.log, 1) && (again ==> attempt < MAX_ATTEMPTS && EndsAsleep(asleep, tried.log))
  {
    var run := action(t);
    OneAttempt(job, asleep, run.log, Judged(w, run.now, run.outcome, asleep, attempt).0.log);
  }

  lemma OneAttempt(job: Job, asleep: bool, log: seq<Entry>, tail: seq<Entry>)
    requires Disciplined(job, log) && forall i :: 0 <= i < |tail| ==> tail[i].SleepRead? || tail[i].Raised?
    ensures RetryLog(job, asleep, [Attempt] + log + tail, 1)
  {
    var marked := [Attempt] + log;
    CountAppend([Attempt], log, IsAttempt);
    CountAppend([Attempt], log, IsStart);
    CountAppend(marked, tail, IsAttempt);
    CountAppend(marked, tail, IsStart);
    CountNone(tail, IsAttempt);
    CountNone(tail, IsStart);
    OneEntry();
    GatedAppend(job, marked, tail);
  }

  lemma RetryLogAppend(job: Job, asleep: bool, a: seq<Entry>, b: seq<Entry>, most: int)
    requires RetryLog(job, asleep, a, 1) && RetryLog(job, asleep, b, most) && EndsAsleep(asleep, a)
    ensures RetryLog(job, asleep, a + b, most + 1)
  {
    GatedAppend(job, a, b);
    CountAppend(a, b, IsAttempt);
    CountAppend(a, b, IsStart);
  }

  lemma OneEntry()
    ensures Count([Attempt], IsAttempt) == 1 && Count([Attempt], IsStart) == 0
  {
    assert Count([], IsAttempt) == 0;
  }

  /** One round, by itself. */
  lemma Tried(w: World, t: nat, action: Action, job: Job, asleep: bool, attempt: int) returns (tried: Trace, again: bool)
    requires 1 <= attempt <= MAX_ATTEMPTS && AlwaysDisciplined(job, action)
    ensures (tried, again) == Try(w, t, action, asleep, attempt)
    ensures RetryLog(job, asleep, tried.log, 1) && (again ==> attempt < MAX_ATTEMPTS && EndsAsleep(asleep, tried.log))
    ensures Retry(w, t, action, asleep, attempt) ==
            if again then Prepend(tried.log, Retry(w, tried.now, action, asleep, attempt + 1)) else tried
  {
    TryShape(w, t, action, job, asleep, attempt);
    tried, again := Try(w, t, action, asleep, attempt).0, Try(w, t, action, asleep, attempt).1;
  }

  lemma {:induction false} RetryShape(w: World, t: nat, action: Action, job: Job, asleep: bool, attempt: int)
    requires 1 <= attempt <= MAX_ATTEMPTS && AlwaysDisciplined(job, action)
    ensures RetryLog(job, asleep, Retry(w, t, action, asleep, attempt).log, MAX_ATTEMPTS + 1 - attempt)
    decreases MAX_ATTEMPTS - attempt
  {
    var tried, again := Tried(w, t, action, job, asleep, attempt);
    if again {
      RetryShape(w, tried.now, action, job, asleep, attempt + 1);
      RetryLogAppend(job, asleep, tried.log, Retry(w, tried.now, action, asleep, attempt + 1).log, MAX_ATTEMPTS - attempt);
    } else {
      FewerAreFine(job, asleep, tried.log, MAX_ATTEMPTS + 1 - attempt);
    }
  }

  lemma FewerAreFine(job: Job, asleep: bool, log: seq<Entry>, most: int)
    requires RetryLog(job, asleep, log, 1) && most >= 1
    ensures RetryLog(job, asleep, log, most)
  {
  }

  /** Before the first attempt there is only the sleep reading and, asleep, the wake. */
  predicate WakeLog(log: seq<Entry>) {
    && log != [] && log[0].SleepRead?
    && forall i :: 0 < i < |log| ==> log[i].Handshake? || log[i].Waited? || log[i].Reconnected?
  }

  /** The one-shot execute path, whatever is lost and however often the machine sleeps: at most
      three attempts run, an attempt after the first needs a sleeping machine, each attempt
      starts at most one brew, and every 8002 or 4512 stands right behind the echoes of 8022,
      8102, 8104 and the recipe command of its own attempt. */
  lemma BrewingIsAckGated(site: Site, t: nat, job: Job)
    ensures var log := Execute(site, t, job).log;
            && StartsGated(job, log)
            && 1 <= Count(log, IsAttempt) <= 3
            && Count(log, IsStart) <= Count(log, IsAttempt)
            && exists first: nat ::
                 && first < |log| && log[first].Attempt? && WakeLog(log[..first])
                 && forall i :: first < i < |log| && log[i].Attempt? ==> SleepRead(true) in {log[0], log[i - 1]}
  {
    var woken := WokenIfAsleep(site, t);
    var action := Brewing(woken.world, job);
    forall u: nat ensures Disciplined(job, action(u).log) {
      BrewDisciplined(woken.world, u, job);
    }
    WakeLogs(site, t);
    RetryShape(woken.world, woken.now, action, job, site.held(t).asleep, 1);
    AfterWaking(job, site.held(t).asleep, woken.log, Rounds(woken.world, woken.now, job, site.held(t).asleep).log);
  }

  lemma WakeLogs(site: Site, t: nat)
    ensures WakeLog(WokenIfAsleep(site, t).log) && WokenIfAsleep(site, t).log[0] == SleepRead(site.held(t).asleep)
  {
  }

  lemma AfterWaking(job: Job, asleep: bool, wake: seq<Entry>, rest: seq<Entry>)
    requires WakeLog(wake) && wake[0] == SleepRead(asleep) && RetryLog(job, asleep, rest, 3)
    ensures var log := wake + rest;
            && StartsGated(job, log)
            && 1 <= Count(log, IsAttempt) <= 3
            && Count(log, IsStart) <= Count(log, IsAttempt)
            && |wake| < |log| && log[|wake|].Attempt? && WakeLog(log[..|wake|])
            && forall i :: |wake| < i < |log| && log[i].Attempt? ==> SleepRead(true) in {log[0], log[i - 1]}
  {
    GatedAppend(job, wake, rest);
    CountAppend(wake, rest, IsAttempt);
    CountAppend(wake, rest, IsStart);
    CountNone(wake, IsAttempt);
    CountNone(wake, IsStart);
    assert (wake + rest)[..|wake|] == wake;
    forall i | |wake| < i < |wake + rest| && (wake + rest)[i].Attempt?
      ensures SleepRead(true) in {(wake + rest)[0], (wake + rest)[i - 1]}
    {
      assert rest[i - |wake|].Attempt?;
      assert asleep || rest[i - |wake| - 1] == SleepRead(true);
    }
  }

  // ------------------------------------------------------------------
  // The new link
  // ------------------------------------------------------------------

  /** All readings of a wake that begins at t. */
  ghost predicate SleepsThrough(w: World, t: nat) {
    forall u :: t < u <= t + 1 + WAKE_POLLS ==> w(u).asleep
  }

  lemma {:induction false} WaitOver(w: World, t: nat, last: nat)
    requires t <= last
    ensures w(WaitEnd(w, t, last)).asleep <==> forall u :: t <= u <= last ==> w(u).asleep
    ensures w(WaitEnd(w, t, last)).asleep ==> WaitEnd(w, t, last) == last
    decreases last - t
  {
    if w(t).asleep && t < last {
      WaitOver(w, t + 1, last);
    }
  }

  predicate IsReconnect(e: Entry) { e.Reconnected? }

  lemma OneReconnect(front: seq<Entry>, log: seq<Entry>)
    requires Reconnected !in front && (log == front || log == front + [Reconnected])
    ensures Reconnected in log <==> log != front
    ensures Count(log, IsReconnect) == if Reconnected in log then 1 else 0
  {
    CountNone(front, IsReconnect);
    assert (front + [Reconnected])[..|front|] == front;
    assert |front + [Reconnected]| != |front|;
  }

  /** What a wake leaves in the log before the new link. */
  function WakeFront(w: World, t: nat): seq<Entry> {
    [SleepRead(true)] + (HandshakeLog(w, t + 1) + [Waited(!w(LastReading(w, t + 1)).asleep)])
  }

  lemma WokenLog(site: Site, t: nat)
    requires site.held(t).asleep
    ensures Reconnected !in WakeFront(site.held, t)
    ensures WokenIfAsleep(site, t).log ==
            if SleepsThrough(site.held, t + 1) && !site.armed(t + 32) then WakeFront(site.held, t) + [Reconnected]
            else WakeFront(site.held, t)
  {
    AsleepAtTheEnd(site.held, t + 1);
  }

  lemma AsleepAtTheEnd(w: World, t: nat)
    ensures w(LastReading(w, t)).asleep <==> SleepsThrough(w, t)
    ensures SleepsThrough(w, t) ==> LastReading(w, t) == t + 31
  {
    WaitOver(w, t + 1, t + 1 + WAKE_POLLS);
  }

  lemma WakeReconnects(site: Site, t: nat)
    ensures var log := WokenIfAsleep(site, t).log;
            && (Reconnected in log <==> site.held(t).asleep && SleepsThrough(site.held, t + 1) && !site.armed(t + 32))
            && Count(log, IsReconnect) == if Reconnected in log then 1 else 0
  {
    var log := WokenIfAsleep(site, t).log;
    if site.held(t).asleep {
      WokenLog(site, t);
      OneReconnect(WakeFront(site.held, t), log);
    } else {
      OneReconnect([SleepRead(false)], log);
    }
  }

  /** The link is made anew exactly if the machine sleeps, the handshake does not wake it through
      31 readings, and nothing is armed when the last of them is made; once at most, and before
      the first attempt. */
  lemma ReconnectsIff(site: Site, t: nat, job: Job)
    ensures Reconnected in Execute(site, t, job).log <==>
            site.held(t).asleep && SleepsThrough(site.held, t + 1) && !site.armed(t + 32)
    ensures Count(Execute(site, t, job).log, IsReconnect) <= 1
  {
    var woken := WokenIfAsleep(site, t);
    var action, asleep := Brewing(woken.world, job), site.held(t).asleep;
    var rest := Rounds(woken.world, woken.now, job, asleep).log;
    forall u: nat ensures Disciplined(job, action(u).log) {
      BrewDisciplined(woken.world, u, job);
    }
    RetryShape(woken.world, woken.now, action, job, asleep, 1);
    WakeReconnects(site, t);
    CountAppend(woken.log, rest, IsReconnect);
    CountNone(rest, IsReconnect);
  }

  /** What the gate of a start is made of: the ids in order, and for tea the very bytes that the
      start carries. */
  lemma GateIds(job: Job, log: seq<Entry>, i: nat)
    requires i < |log| && Gated(job, log, i)
    ensures log[i - 7] == Echoed(8022) && log[i - 5] == Echoed(8102) && log[i - 3] == Echoed(8104)
    ensures log[i].command.RecipeExecute? ==>
              && log[i - 1] == Echoed(if Grinding(job.recipe) then 8001 else 8004)
              && CoffeePayload(job.recipe).Some?
              && log[i - 2] == Sent(RecipeSend(Grinding(job.recipe), CoffeePayload(job.recipe).value))
    ensures log[i].command.TeaRecipeMake? ==>
              && log[i - 1] == Echoed(4513)
              && log[i - 2] == Sent(TeaRecipeCode(log[i].command.make))
  {
    var gate := log[i - 9..i];
    assert gate[2] == log[i - 7] && gate[4] == log[i - 5] && gate[6] == log[i - 3];
    assert gate[7] == log[i - 2] && gate[8] == log[i - 1];
  }

  // What the steps before a start carry, in literal numbers.

  /** The dose of 8102: the weighed dose without its fraction, whether or not the grinder runs. */
  ghost predicate WholeDose(beanWeight: real, dose: int) {
    if beanWeight > 0.0 then dose as real <= beanWeight < dose as real + 1.0 else dose == 0
  }

  ghost predicate CoffeeSettings(job: Job, bypass: Command, cup: Command) {
    var r := job.recipe;
    var grinds := r.grindSize > 0 && r.beanWeight > 0.0;
    && bypass.SetBypass? && bypass.volume == job.bypassVolume && bypass.temperatureTenths == 10.0 * job.bypassTemperature
    && WholeDose(r.beanWeight, bypass.dose)
    && cup.SetCup? && cup.max == (if r.cupType == 1 then 80.0 else 90.0)
    && cup.min == (if (r.cupType == 1 || r.cupType == 2 || r.cupType == 3) && !grinds then 0.0 else 40.0)
  }

  /** A coffee start stands behind 8022, 8102, 8104 and its recipe, in this order and each with the
      settings of the job; the recipe goes out as 8001 exactly if there is something to grind. */
  ghost predicate CoffeeGate(job: Job, log: seq<Entry>, i: nat)
    requires 9 <= i < |log| && log[i - 8].Sent? && log[i - 6].Sent? && log[i - 4].Sent? && log[i - 2].Sent? && log[i].Sent?
  {
    var r := job.recipe;
    && log[i - 8].command.BackToHome? && CoffeeSettings(job, log[i - 6].command, log[i - 4].command)
    && log[i - 2].command.RecipeSend? && (log[i - 2].command.auto <==> r.grindSize > 0 && r.beanWeight > 0.0)
    && CoffeePayload(r) == Some(log[i - 2].command.recipe)
    && log[i].command.RecipeExecute?
  }

  /** A tea start stands behind the same with everything off, and carries the bytes of its 4513. */
  ghost predicate TeaGate(job: Job, log: seq<Entry>, i: nat)
    requires 9 <= i < |log| && log[i - 8].Sent? && log[i - 6].Sent? && log[i - 4].Sent? && log[i - 2].Sent? && log[i].Sent?
  {
    && log[i - 8].command.BackToHome?
    && log[i - 6].command == SetBypass(0.0, 0.0, 0) && log[i - 4].command == SetCup(200.0, 0.0)
    && log[i - 2].command.TeaRecipeCode? && TeaPayload(job.recipe) == Some(log[i - 2].command.code)
    && log[i].command == TeaRecipeMake(log[i - 2].command.code)
  }

  lemma GateArguments(job: Job, log: seq<Entry>, i: nat)
    requires i < |log| && Gated(job, log, i)
    ensures 9 <= i && log[i - 8].Sent? && log[i - 6].Sent? && log[i - 4].Sent? && log[i - 2].Sent? && log[i].Sent?
    ensures if job.recipe.cupType == 4 then TeaGate(job, log, i) else CoffeeGate(job, log, i)
  {
    var gate := log[i - 9..i];
    assert gate[1] == log[i - 8] && gate[3] == log[i - 6] && gate[5] == log[i - 4] && gate[7] == log[i - 2];
    PreludeArguments(job);
  }

  lemma PreludeArguments(job: Job)
    ensures var p := Prelude(job);
            && p[0].BackToHome?
            && (job.recipe.cupType == 4 ==> p[1] == SetBypass(0.0, 0.0, 0) && p[2] == SetCup(200.0, 0.0))
            && (job.recipe.cupType != 4 ==> CoffeeSettings(job, p[1], p[2]))
  {
  }

  /** Over every run of the one-shot execute. */
  lemma SettingsBeforeEveryStart(site: Site, t: nat, job: Job, i: nat)
    requires i < |Execute(site, t, job).log| && IsStart(Execute(site, t, job).log[i])
    ensures var log := Execute(site, t, job).log;
            && 9 <= i && log[i - 8].Sent? && log[i - 6].Sent? && log[i - 4].Sent? && log[i - 2].Sent? && log[i].Sent?
            && (if job.recipe.cupType == 4 then TeaGate(job, log, i) else CoffeeGate(job, log, i))
  {
    BrewingIsAckGated(site, t, job);
    GateArguments(job, Execute(site, t, job).log, i);
  }

  // When the retry stops, and with what.

  /** The log of a retry loop and how it ends: with an exception only at its very end; after fewer
      attempts than it may make only if an exception ended it or the machine read awake; with
      success exactly behind the sign or the echo that confirms a start. */
  ghost predicate Ending(asleep: bool, t: Trace, most: int) {
    && t.log != [] && t.log[0].Attempt?
    && (forall i :: 0 <= i < |t.log| - 1 ==> !t.log[i].Raised?)
    && (t.outcome.Failed? <==> Last(t.log).Raised?)
    && (Count(t.log, IsAttempt) < most && !t.outcome.Failed? ==> Last(t.log) == SleepRead(false) && (t.outcome.TimedOut? ==> !asleep))
    && (t.outcome.Done? <==> Confirmed(t.log))
  }

  /** The last reading comes behind the sign of a coffee start, or the echo of a tea start. */
  ghost predicate Confirmed(log: seq<Entry>) {
    |log| >= 2 && Last(log).SleepRead? && (log[|log| - 2] == StartSign(true) || log[|log| - 2] == Echoed(4512))
  }

  /** An attempt's own log, and how it ends. */
  ghost predicate Ended(t: Trace) {
    && (forall i :: 0 <= i < |t.log| ==> t.log[i].Sent? || Answers(t.log[i]))
    && (t.outcome.Done? <==> t.log != [] && (Last(t.log) == StartSign(true) || Last(t.log) == Echoed(4512)))
  }

  lemma StartEnds(w: World, t: nat, job: Job, bytes: seq<byte>)
    ensures Ended(Start(w, t, job, bytes))
  {
  }

  lemma ThenEnds(arm: Trace, start: Trace)
    requires arm.outcome.Done? && arm.log != [] && Last(arm.log).Echoed? && Last(arm.log).id != 4512 && Quiet(arm.log) && Ended(start)
    ensures Ended(Then(arm, start))
  {
    assert start.log != [] ==> Last(arm.log + start.log) == Last(start.log);
    assert start.log == [] ==> arm.log + start.log == arm.log;
  }

  lemma BrewEnds(w: World, t: nat, job: Job)
    ensures Ended(Brew(w, t, job))
  {
    var arm := Arm(w, t, job);
    ArmShape(w, t, job);
    if arm.outcome.Done? {
      var bytes := Bytes(job).value;
      StartEnds(w, arm.now, job, bytes);
      assert Last(AckedSteps(job, bytes)) == Echoed(Id(RecipeCommand(job, bytes)));
      ThenEnds(arm, Start(w, arm.now, job, bytes));
    } else {
      ArmFails(w, t, job);
    }
  }

  /** Nothing in a chain confirms a start. */
  ghost predicate NoSign(log: seq<Entry>) {
    forall i :: 0 <= i < |log| ==> !log[i].StartSign? && log[i] != Echoed(4512)
  }

  lemma {:induction false} ChainNoSign(w: World, t: nat, steps: seq<Command>)
    requires forall i :: 0 <= i < |steps| ==> Id(steps[i]) != 4512
    ensures NoSign(Chain(w, t, steps).log)
    decreases |steps|
  {
    if steps != [] {
      ChainNoSign(w, Send(w, t, steps[0]).now, steps[1..]);
    }
  }

  lemma ArmFails(w: World, t: nat, job: Job)
    ensures NoSign(Arm(w, t, job).log)
  {
    ChainNoSign(w, t + 1, Prelude(job));
  }

  /** The log of one attempt with its verdict: at most one entry comes after the attempt's own. */
  lemma JudgedLog(log: seq<Entry>, verdict: seq<Entry>)
    requires |verdict| <= 1 && (forall i :: 0 <= i < |verdict| ==> verdict[i].SleepRead? || verdict[i].Raised?)
    requires forall i :: 0 <= i < |log| ==> log[i].Sent? || Answers(log[i])
    ensures var all := [Attempt] + log + verdict;
            && Count(all, IsAttempt) == 1 && all[0].Attempt? && (forall i :: 0 <= i < |all| - 1 ==> !all[i].Raised?)
            && (verdict == [] ==> !Last(all).Raised? && !Last(all).SleepRead?)
            && (verdict != [] ==> Last(all) == verdict[0] && all[|all| - 2] == if log == [] then Attempt else Last(log))
  {
    CountAppend([Attempt], log, IsAttempt);
    CountAppend([Attempt] + log, verdict, IsAttempt);
    CountNone(log, IsAttempt);
    CountNone(verdict, IsAttempt);
    OneEntry();
  }

  /** What the verdict on an attempt adds to the log, and when another attempt follows. */
  ghost predicate Verdict(judged: Trace, again: bool, outcome: Outcome, asleep: bool, attempt: int) {
    && |judged.log| <= 1 && (forall i :: 0 <= i < |judged.log| ==> judged.log[i].SleepRead? || judged.log[i].Raised?)
    && judged.outcome == outcome
    && (outcome.Failed? <==> judged.log == [Raised])
    && (outcome.Done? ==> judged.log != [] && judged.log[0].SleepRead?)
    && (again ==> !outcome.Failed?)
    && (!again && !outcome.Failed? && attempt < MAX_ATTEMPTS ==> judged.log == [SleepRead(false)] && (outcome.TimedOut? ==> !asleep))
  }

  lemma JudgedVerdict(w: World, t: nat, outcome: Outcome, asleep: bool, attempt: int)
    requires attempt <= MAX_ATTEMPTS
    ensures var (judged, again) := Judged(w, t, outcome, asleep, attempt); Verdict(judged, again, outcome, asleep, attempt)
  {
  }

  ghost predicate AttemptEnds(tried: Trace, again: bool, asleep: bool, attempt: int) {
    && Count(tried.log, IsAttempt) == 1 && tried.log != [] && tried.log[0].Attempt?
    && (forall i :: 0 <= i < |tried.log| - 1 ==> !tried.log[i].Raised?)
    && (again ==> forall i :: 0 <= i < |tried.log| ==> !tried.log[i].Raised?)
    && (!again ==> Ending(asleep, tried, if attempt < MAX_ATTEMPTS then 2 else 1))
  }

  lemma VerdictEnds(run: Trace, judged: Trace, again: bool, asleep: bool, attempt: int)
    requires Ended(run) && Verdict(judged, again, run.outcome, asleep, attempt)
    ensures AttemptEnds(Prepend([Attempt] + run.log, judged), again, asleep, attempt)
  {
    JudgedLog(run.log, judged.log);
  }

  lemma TryEnds(w: World, t: nat, action: Action, asleep: bool, attempt: int)
    requires 1 <= attempt <= MAX_ATTEMPTS && Ended(action(t))
    ensures var (tried, again) := Try(w, t, action, asleep, attempt); AttemptEnds(tried, again, asleep, attempt)
  {
    var run := action(t);
    JudgedVerdict(w, run.now, run.outcome, asleep, attempt);
    var (judged, again) := Judged(w, run.now, run.outcome, asleep, attempt);
    VerdictEnds(run, judged, again, asleep, attempt);
  }

  lemma EndingAppend(asleep: bool, first: seq<Entry>, rest: Trace, most: int)
    requires Ending(asleep, rest, most) && first != [] && first[0].Attempt? && Count(first, IsAttempt) == 1
    requires forall i :: 0 <= i < |first| ==> !first[i].Raised?
    ensures Ending(asleep, Prepend(first, rest), most + 1)
  {
    var log := first + rest.log;
    CountAppend(first, rest.log, IsAttempt);
    assert Last(log) == Last(rest.log);
    assert |rest.log| >= 2 ==> log[|log| - 2] == rest.log[|rest.log| - 2];
    assert |rest.log| == 1 ==> Last(log).Attempt?;
  }

  ghost predicate AlwaysEnds(action: Action) {
    forall t: nat :: Ended(action(t))
  }

  lemma {:induction false} RetryEnds(w: World, t: nat, action: Action, asleep: bool, attempt: int)
    requires 1 <= attempt <= MAX_ATTEMPTS && AlwaysEnds(action)
    ensures Ending(asleep, Retry(w, t, action, asleep, attempt), MAX_ATTEMPTS + 1 - attempt)
    decreases MAX_ATTEMPTS - attempt
  {
    TryEnds(w, t, action, asleep, attempt);
    var (tried, again) := Try(w, t, action, asleep, attempt);
    if again {
      RetryEnds(w, tried.now, action, asleep, attempt + 1);
      EndingAppend(asleep, tried.log, Retry(w, tried.now, action, asleep, attempt + 1), MAX_ATTEMPTS - attempt);
    } else {
      assert attempt < MAX_ATTEMPTS ==> 2 <= MAX_ATTEMPTS + 1 - attempt;
      assert Retry(w, t, action, asleep, attempt) == tried;
    }
  }

  /** Over every run of the one-shot execute: an exception is its last entry or there is none; with
      fewer than three attempts it ended on an exception, or on a reading that said awake, and a
      timeout only if the machine was awake at the start as well; and it reports success exactly
      if what came before the last reading is the machine's sign of a coffee start or the echo of
      4512. */
  lemma RunsToTheEnd(site: Site, t: nat, job: Job)
    ensures var run := Execute(site, t, job);
            && run.log != []
            && (forall i :: 0 <= i < |run.log| - 1 ==> !run.log[i].Raised?)
            && (run.outcome.Failed? <==> Last(run.log).Raised?)
            && (Count(run.log, IsAttempt) < 3 && !run.outcome.Failed? ==>
                  Last(run.log) == SleepRead(false) && (run.outcome.TimedOut? ==> run.log[0] == SleepRead(false)))
            && (run.outcome.Done? <==> Confirmed(run.log))
  {
    var woken := WokenIfAsleep(site, t);
    var asleep := site.held(t).asleep;
    forall u: nat ensures Ended(Brewing(woken.world, job)(u)) {
      BrewEnds(woken.world, u, job);
    }
    RetryEnds(woken.world, woken.now, Brewing(woken.world, job), asleep, 1);
    WakeLogs(site, t);
    EndingAfterWake(asleep, woken.log, Rounds(woken.world, woken.now, job, asleep));
  }

  lemma EndingAfterWake(asleep: bool, wake: seq<Entry>, rest: Trace)
    requires Ending(asleep, rest, 3) && WakeLog(wake) && wake[0] == SleepRead(asleep)
    ensures var run := Prepend(wake, rest);
            && run.log != [] && run.log[0] == SleepRead(asleep)
            && (forall i :: 0 <= i < |run.log| - 1 ==> !run.log[i].Raised?)
            && (run.outcome.Failed? <==> Last(run.log).Raised?)
            && Count(run.log, IsAttempt) == Count(rest.log, IsAttempt) && Last(run.log) == Last(rest.log)
            && (run.outcome.Done? <==> Confirmed(run.log))
  {
    var log := wake + rest.log;
    CountAppend(wake, rest.log, IsAttempt);
    CountNone(wake, IsAttempt);
    assert Last(log) == Last(rest.log);
    assert |rest.log| >= 2 ==> log[|log| - 2] == rest.log[|rest.log| - 2];
  }

  /** Arming starts nothing, however often it is tried, and an awake machine that answers is armed at
      the first attempt, behind the four echoes. */
  lemma ArmingStartsNothing(site: Site, t: nat, job: Job)
    ensures Count(ArmRun(site, t, job).log, IsStart) == 0
    ensures Healthy(site.held) && Bytes(job).Some? ==>
              && ArmRun(site, t, job).outcome.Done?
              && ArmRun(site, t, job).log == [SleepRead(false)] + ([Attempt] + AckedSteps(job, Bytes(job).value) + [SleepRead(false)])
  {
    var woken := WokenIfAsleep(site, t);
    var action, asleep := Arming(woken.world, job), site.held(t).asleep;
    forall u: nat ensures Count(action(u).log, IsStart) == 0 {
      ArmShape(woken.world, u, job);
      CountNone(action(u).log, IsStart);
    }
    NoStarts(woken.world, woken.now, action, asleep, 1);
    WakeLogs(site, t);
    CountNone(woken.log, IsStart);
    CountAppend(woken.log, Retry(woken.world, woken.now, action, asleep, 1).log, IsStart);
    if Healthy(site.held) && Bytes(job).Some? {
      HealthyArm(site.held, t + 1, job);
      OneRound(site.held, t + 1, Arming(site.held, job), false);
    }
  }

  lemma HealthyArm(w: World, t: nat, job: Job)
    requires Bytes(job).Some? && Healthy(w)
    ensures Arm(w, t, job).outcome.Done? && Arm(w, t, job).log == AckedSteps(job, Bytes(job).value)
    ensures Arming(w, job)(t) == Arm(w, t, job)
  {
    ChainOfThree(w, t + 1, Prelude(job));
    ArmShape(w, t, job);
  }

  ghost predicate NeverStarts(action: Action) {
    forall t: nat :: Count(action(t).log, IsStart) == 0
  }

  lemma TryStartsNothing(w: World, t: nat, action: Action, asleep: bool, attempt: int)
    requires attempt <= MAX_ATTEMPTS && Count(action(t).log, IsStart) == 0
    ensures Count(Try(w, t, action, asleep, attempt).0.log, IsStart) == 0
  {
    var run := action(t);
    var judged := Judged(w, run.now, run.outcome, asleep, attempt).0;
    CountNone([Attempt], IsStart);
    CountNone(judged.log, IsStart);
    CountAppend([Attempt], run.log, IsStart);
    CountAppend([Attempt] + run.log, judged.log, IsStart);
  }

  lemma {:induction false} NoStarts(w: World, t: nat, action: Action, asleep: bool, attempt: int)
    requires 1 <= attempt <= MAX_ATTEMPTS && NeverStarts(action)
    ensures Count(Retry(w, t, action, asleep, attempt).log, IsStart) == 0
    decreases MAX_ATTEMPTS - attempt
  {
    TryStartsNothing(w, t, action, asleep, attempt);
    var (tried, again) := Try(w, t, action, asleep, attempt);
    if again {
      NoStarts(w, tried.now, action, asleep, attempt + 1);
      CountAppend(tried.log, Retry(w, tried.now, action, asleep, attempt + 1).log, IsStart);
    }
  }

  /** A link that is gone, or a write that fails, is an exception: one attempt and no start. */
  lemma BrokenLinkEndsTheRun(site: Site, t: nat, job: Job)
    requires !site.held(t).asleep
    ensures site.held(t + 1).reply.Unconnected? ==>
              Execute(site, t, job).outcome.Failed? && Execute(site, t, job).log == [SleepRead(false), Attempt, Raised]
    ensures !site.held(t + 1).reply.Unconnected? && site.held(t + 2).reply.WriteError? ==>
              && Execute(site, t, job).outcome.Failed?
              && Execute(site, t, job).log == [SleepRead(false), Attempt, Sent(BackToHome), Raised]
  {
    AwakeRun(site, t, job);
    BrokenBrew(site.held, t + 1, job);
    assert Brewing(site.held, job)(t + 1) == Brew(site.held, t + 1, job);
  }

  lemma BrokenBrew(w: World, t: nat, job: Job)
    ensures w(t).reply.Unconnected? ==> Brew(w, t, job) == Trace([], t + 1, Failed)
    ensures !w(t).reply.Unconnected? && w(t + 1).reply.WriteError? ==> Brew(w, t, job) == Trace([Sent(BackToHome)], t + 2, Failed)
  {
    ChainOfThree(w, t + 1, Prelude(job));
  }

  /** Success means a start was sent. */
  lemma SuccessMeansStarted(site: Site, t: nat, job: Job)
    ensures Execute(site, t, job).outcome.Done? ==> Count(Execute(site, t, job).log, IsStart) >= 1
  {
    var woken := WokenIfAsleep(site, t);
    var action, asleep := Brewing(woken.world, job), site.held(t).asleep;
    forall u: nat ensures StartsIfDone(action(u)) {
      BrewDisciplined(woken.world, u, job);
    }
    RetrySucceeds(woken.world, woken.now, action, asleep, 1);
    PrependKeepsStarts(woken.log, Rounds(woken.world, woken.now, job, asleep));
  }

  predicate StartsIfDone(t: Trace) { t.outcome.Done? ==> Count(t.log, IsStart) >= 1 }

  ghost predicate AlwaysStarts(action: Action) {
    forall t: nat :: StartsIfDone(action(t))
  }

  lemma {:induction false} RetrySucceeds(w: World, t: nat, action: Action, asleep: bool, attempt: int)
    requires 1 <= attempt <= MAX_ATTEMPTS && AlwaysStarts(action)
    ensures StartsIfDone(Retry(w, t, action, asleep, attempt))
    decreases MAX_ATTEMPTS - attempt
  {
    var (tried, again) := Try(w, t, action, asleep, attempt);
    TrySucceeds(w, t, action, asleep, attempt);
    if again {
      var rest := Retry(w, tried.now, action, asleep, attempt + 1);
      RetrySucceeds(w, tried.now, action, asleep, attempt + 1);
      PrependKeepsStarts(tried.log, rest);
    }
  }

  lemma PrependKeepsStarts(log: seq<Entry>, t: Trace)
    requires StartsIfDone(t)
    ensures StartsIfDone(Prepend(log, t))
  {
    CountAppend(log, t.log, IsStart);
  }

  lemma TrySucceeds(w: World, t: nat, action: Action, asleep: bool, attempt: int)
    requires 1 <= attempt <= MAX_ATTEMPTS && StartsIfDone(action(t))
    ensures StartsIfDone(Try(w, t, action, asleep, attempt).0)
  {
    var run := action(t);
    var judged := Judged(w, run.now, run.outcome, asleep, attempt).0;
    CountAppend([Attempt], run.log, IsStart);
    CountAppend([Attempt] + run.log, judged.log, IsStart);
  }

  /** A machine that is awake, answers every step and begins the brew is asked exactly once. */
  lemma HealthyMachineBrewsOnce(site: Site, t: nat, job: Job)
    requires Healthy(site.held)
    ensures Bytes(job).Some? ==>
              && Execute(site, t, job).outcome.Done?
              && Execute(site, t, job).log == [SleepRead(false)] + ([Attempt] + BrewLog(job, Bytes(job).value) + [SleepRead(false)])
  {
    if Bytes(job).Some? {
      AwakeRun(site, t, job);
      HealthyRound(site.held, t + 1, job, false);
    }
  }

  lemma AwakeRun(site: Site, t: nat, job: Job)
    requires !site.held(t).asleep
    ensures Execute(site, t, job) == Prepend([SleepRead(false)], Rounds(site.held, t + 1, job, false))
  {
  }

  ghost predicate Healthy(w: World) {
    forall u: nat :: w(u).reply.Echo? && !w(u).asleep && w(u).underway
  }

  function BrewLog(job: Job, bytes: seq<byte>): seq<Entry> {
    AckedSteps(job, bytes) + [Sent(StartCommand(job, bytes))]
    + (if IsTea(job.recipe) then [Echoed(4512)] else [StartSign(true)])
  }

  lemma HealthyRound(w: World, t: nat, job: Job, asleep: bool)
    requires Bytes(job).Some? && Healthy(w)
    ensures Rounds(w, t, job, asleep).outcome.Done?
    ensures Rounds(w, t, job, asleep).log == [Attempt] + BrewLog(job, Bytes(job).value) + [SleepRead(false)]
  {
    HealthyBrew(w, t, job);
    assert Brewing(w, job)(t) == Brew(w, t, job);
    OneRound(w, t, Brewing(w, job), asleep);
  }

  lemma OneRound(w: World, t: nat, action: Action, asleep: bool)
    requires action(t).outcome.Done? && !w(action(t).now).asleep
    ensures Retry(w, t, action, asleep, 1).outcome.Done?
    ensures Retry(w, t, action, asleep, 1).log == [Attempt] + action(t).log + [SleepRead(false)]
  {
  }

  lemma HealthyBrew(w: World, t: nat, job: Job)
    requires Bytes(job).Some? && Healthy(w)
    ensures Brew(w, t, job).outcome.Done? && Brew(w, t, job).log == BrewLog(job, Bytes(job).value)
  {
    ChainOfThree(w, t + 1, Prelude(job));
    ArmShape(w, t, job);
  }

  // ------------------------------------------------------------------
  // What else reads the arm
  // ------------------------------------------------------------------

  /** The run depends on what is armed, and when, through one reading at most: the one with which
      the wait for a sleeping machine ends. Nothing armed or disarmed at another time matters, and
      from the first attempt on nothing at all. */
  lemma ArmIsReadOnce(a: Site, b: Site, t: nat, job: Job)
    requires a.held == b.held && a.anew == b.anew
    ensures Execute(a, t, job) == Execute(b, t, job) <==>
            (a.held(t).asleep && SleepsThrough(a.held, t + 1) ==> a.armed(t + 32) == b.armed(t + 32))
  {
    WaitOver(a.held, t + 2, t + 2 + WAKE_POLLS);
    if a.held(t).asleep && SleepsThrough(a.held, t + 1) && a.armed(t + 32) != b.armed(t + 32) {
      ReconnectsIff(a, t, job);
      ReconnectsIff(b, t, job);
    } else {
      assert WokenIfAsleep(a, t) == WokenIfAsleep(b, t);
    }
  }

  /** A machine that sleeps on and hears nothing: three attempts that get no further than 8022. */
  ghost predicate Deaf(w: World) {
    forall u: nat :: w(u).reply.Silent? && w(u).asleep
  }

  lemma DeafBrew(w: World, t: nat, job: Job)
    requires Deaf(w)
    ensures Brew(w, t, job) == Trace([Sent(BackToHome)], t + 2, TimedOut)
  {
    ChainOfThree(w, t + 1, Prelude(job));
  }

  lemma {:induction false} DeafRounds(w: World, t: nat, job: Job, attempt: int)
    requires Deaf(w) && 1 <= attempt <= MAX_ATTEMPTS
    ensures Retry(w, t, Brewing(w, job), true, attempt).outcome.TimedOut?
    ensures Count(Retry(w, t, Brewing(w, job), true, attempt).log, IsStart) == 0
    decreases MAX_ATTEMPTS - attempt
  {
    DeafBrew(w, t, job);
    assert Brewing(w, job)(t) == Brew(w, t, job);
    var (tried, again) := Try(w, t, Brewing(w, job), true, attempt);
    assert tried.log == [Attempt, Sent(BackToHome)];
    CountNone(tried.log, IsStart);
    if again {
      DeafRounds(w, tried.now, job, attempt + 1);
      CountAppend(tried.log, Retry(w, tried.now, Brewing(w, job), true, attempt + 1).log, IsStart);
    }
  }

  lemma DeafWake(site: Site, t: nat)
    requires Deaf(site.held)
    ensures WokenIfAsleep(site, t) ==
            if site.armed(t + 32) then Awakening([SleepRead(true), Handshake, Waited(false)], site.held, t + 33)
            else Awakening([SleepRead(true), Handshake, Waited(false), Reconnected], site.anew, t + 34)
  {
    WaitOver(site.held, t + 2, t + 2 + WAKE_POLLS);
  }

  /** A machine that is deaf over the held link and healthy over a new one: without an arm when the
      wait ends the brew goes out, */
  lemma BrewsOverANewLink(site: Site, t: nat, job: Job)
    requires Deaf(site.held) && Healthy(site.anew) && Bytes(job).Some? && !site.armed(t + 32)
    ensures Execute(site, t, job).outcome.Done?
    ensures Execute(site, t, job).log == [SleepRead(true), Handshake, Waited(false), Reconnected]
                                         + ([Attempt] + BrewLog(job, Bytes(job).value) + [SleepRead(false)])
  {
    DeafWake(site, t);
    HealthyRound(site.anew, t + 34, job, true);
  }

  /** with one it does not. */
  lemma NoBrewWhileArmed(site: Site, t: nat, job: Job)
    requires Deaf(site.held) && site.armed(t + 32)
    ensures Execute(site, t, job).outcome.TimedOut? && Count(Execute(site, t, job).log, IsStart) == 0
  {
    DeafWake(site, t);
    DeafRounds(site.held, t + 33, job, 1);
    var woken := [SleepRead(true), Handshake, Waited(false)];
    CountNone(woken, IsStart);
    CountAppend(woken, Rounds(site.held, t + 33, job, true).log, IsStart);
  }
}
