/** The reconnect supervisor of coordinator/connection.py and its exponential backoff, over runs of
    polls, on-demand connects, failures and successes at arbitrary times. */
module Backoff {
  import opened Basics

  const BASE := 5
  const CEILING := 300.0

  /** From the 1025th consecutive failure on, 2 ** (n - 1) no longer converts to a float and the
      computation of the delay raises after the counter has been stepped. */
  const LAST_COMPUTED := 1024

  function Pow2(n: nat): (r: int)
    ensures r >= 1
  {
    if n == 0 then 1 else 2 * Pow2(n - 1)
  }

  /** What the supervisor waits after the n-th consecutive failure. */
  function Delay(n: nat): real
    requires n >= 1
  {
    if BASE * Pow2(n - 1) < 300 then (BASE * Pow2(n - 1)) as real else CEILING
  }

  datatype Entry =
    | Tried(at: real, bySupervisor: bool)
    | Failed(at: real)
    | Succeeded(at: real)

  datatype Link = Link(failures: nat, blockedUntil: real, busy: bool, up: bool, now: real, log: seq<Entry>)

  const START := Link(0, 0.0, false, false, 0.0, [])

  datatype Event =
    | Poll(t: real, held: bool)   // a supervisor tick; held after a user's disconnect or in standby
    | OnDemand(t: real)           // a user action, or the one attempt at a dropped link
    | Connects(t: real)
    | Finishes(t: real)
    | Fails(t: real)
    | Drops(t: real)

  predicate Possible(s: Link, e: Event) {
    && e.t >= s.now
    && (e.Connects? || e.Finishes? || e.Fails? ==> s.busy)
    && (e.Finishes? ==> s.log != [] && s.log[|s.log| - 1].Succeeded?)
  }

  /** The gate after one more failure. */
  function Blocked(s: Link, t: real): real {
    if s.failures + 1 <= LAST_COMPUTED then t + Delay(s.failures + 1) else s.blockedUntil
  }

  function Step(s: Link, e: Event): Link {
    var u := s.(now := e.t);
    match e
    case Poll(t, held) =>
      if !s.up && !held && !s.busy && t >= s.blockedUntil then u.(busy := true, log := s.log + [Tried(t, true)]) else u
    case OnDemand(t) =>
      if !s.up && !s.busy then u.(busy := true, log := s.log + [Tried(t, false)]) else u
    case Connects(t) => u.(failures := 0, blockedUntil := 0.0, log := s.log + [Succeeded(t)])
    case Finishes(_) => u.(busy := false, up := true)
    case Fails(t) =>
      u.(failures := s.failures + 1, busy := false, up := false, log := s.log + [Failed(t)],
         blockedUntil := Blocked(s, t))
    case Drops(_) => u.(up := false)
  }

  predicate Legal(s: Link, events: seq<Event>)
    decreases |events|
  {
    events != [] ==> Possible(s, events[0]) && Legal(Step(s, events[0]), events[1..])
  }

  function Run(s: Link, events: seq<Event>): Link
    decreases |events|
  {
    if events == [] then s else Run(Step(s, events[0]), events[1..])
  }

  // ------------------------------------------------------------------
  // The program
  // ------------------------------------------------------------------

  class Coordinator {
    var reconnectFailures: nat
    var reconnectBlockedUntil: real
    var locked: bool
    var connected: bool
    ghost var now: real
    ghost var log: seq<Entry>

    ghost function View(): Link
      reads this
    {
      Link(reconnectFailures, reconnectBlockedUntil, locked, connected, now, log)
    }

    constructor ()
      ensures View() == START
    {
      reconnectFailures, reconnectBlockedUntil, locked, connected, now, log := 0, 0.0, false, false, 0.0, [];
    }

    /** _maybe_schedule_reconnect, called by the poll when there is no link. */
    method MaybeScheduleReconnect(t: real, held: bool) returns (tries: bool)
      modifies this
      ensures View() == Step(old(View()), Poll(t, held))
      ensures tries == (|log| > |old(log)|)
    {
      now := t;
      if connected || held || locked || t < reconnectBlockedUntil {
        return false;
      }
      locked := true;
      log := log + [Tried(t, true)];
      return true;
    }

    /** A connect that does not ask the supervisor. */
    method EnsureConnected(t: real)
      modifies this
      ensures View() == Step(old(View()), OnDemand(t))
    {
      now := t;
      if connected || locked {
        return;
      }
      locked := true;
      log := log + [Tried(t, false)];
    }

    /** _note_connect_failure, as the attempt ends. */
    method NoteConnectFailure(t: real)
      modifies this
      ensures View() == Step(old(View()), Fails(t))
    {
      now := t;
      locked, connected := false, false;
      log := log + [Failed(t)];
      reconnectFailures := reconnectFailures + 1;
      if reconnectFailures > LAST_COMPUTED {
        return;
      }
      var delay := DelayAfter(reconnectFailures);
      reconnectBlockedUntil := t + delay;
    }

    static method DelayAfter(n: nat) returns (delay: real)
      requires n >= 1
      ensures delay == Delay(n)
    {
      var power := 1;
      for i := 0 to n - 1
        invariant power == Pow2(i)
      {
        power := 2 * power;
      }
      delay := if (BASE * power) as real < CEILING then (BASE * power) as real else CEILING;
    }

    /** _note_connect_success. */
    method NoteConnectSuccess(t: real)
      modifies this
      ensures View() == Step(old(View()), Connects(t))
    {
      now := t;
      log := log + [Succeeded(t)];
      reconnectFailures := 0;
      reconnectBlockedUntil := 0.0;
    }
  }

  // ------------------------------------------------------------------
  // Readings of the log
  // ------------------------------------------------------------------

  /** Consecutive failures at the end of the log. */
  function Failures(log: seq<Entry>): nat {
    if log == [] then 0
    else match Last(log)
      case Succeeded(_) => 0
      case Failed(_) => Failures(Front(log)) + 1
      case Tried(_, _) => Failures(Front(log))
  }

  /** When the streak's latest failure happened. */
  function LatestFailure(log: seq<Entry>): real
    requires Failures(log) >= 1
  {
    if Last(log).Failed? then Last(log).at else LatestFailure(Front(log))
  }

  /** When the streak's first failure happened. */
  function FirstFailure(log: seq<Entry>): real
    requires Failures(log) >= 1
  {
    if Last(log).Failed? && Failures(log) == 1 then Last(log).at else FirstFailure(Front(log))
  }

  /** When the supervisor tried again since then, in order. */
  function Retries(log: seq<Entry>): seq<real> {
    if log == [] || Failures(log) == 0 then []
    else match Last(log)
      case Tried(at, true) => Retries(Front(log)) + [at]
      case _ => Retries(Front(log))
  }

  // ------------------------------------------------------------------
  // Every run
  // ------------------------------------------------------------------

  /** When the gate opens, read off the log. */
  function Gate(log: seq<Entry>): real {
    if log == [] then 0.0
    else match Last(log)
      case Succeeded(_) => 0.0
      case Failed(at) => if Failures(log) <= LAST_COMPUTED then at + Delay(Failures(log)) else Gate(Front(log))
      case Tried(_, _) => Gate(Front(log))
  }

  /** Times never run back, attempts do not overlap, and the supervisor waits for the gate. */
  ghost predicate Lawful(log: seq<Entry>) {
    log != [] ==>
      && Lawful(Front(log))
      && (Front(log) != [] ==> Last(Front(log)).at <= Last(log).at)
      && (Last(log).Tried? && Front(log) != [] ==> !Last(Front(log)).Tried?)
      && (Last(log).Tried? && Last(log).bySupervisor ==> Gate(Front(log)) <= Last(log).at)
  }

  ghost predicate Inv(s: Link) {
    && Lawful(s.log)
    && s.failures == Failures(s.log) && s.blockedUntil == Gate(s.log)
    && (s.log != [] ==> Last(s.log).at <= s.now)
    && (s.log != [] && Last(s.log).Tried? ==> s.busy)
  }

  lemma StepKeeps(s: Link, e: Event)
    requires Inv(s) && Possible(s, e)
    ensures Inv(Step(s, e))
  {
  }

  lemma {:induction false} RunKeeps(s: Link, events: seq<Event>)
    requires Inv(s) && Legal(s, events)
    ensures Inv(Run(s, events))
    decreases |events|
  {
    if events != [] {
      StepKeeps(s, events[0]);
      RunKeeps(Step(s, events[0]), events[1..]);
    }
  }

  lemma {:induction false} GateAfterFailure(log: seq<Entry>)
    requires 1 <= Failures(log) <= LAST_COMPUTED
    ensures Gate(log) == LatestFailure(log) + Delay(Failures(log))
  {
    if !Last(log).Failed? {
      GateAfterFailure(Front(log));
    }
  }

  lemma {:induction false} LawfulPrefix(log: seq<Entry>, n: nat)
    requires Lawful(log) && n <= |log|
    ensures Lawful(log[..n])
    decreases |log|
  {
    if n == |log| {
      assert log[..n] == log;
    } else {
      assert Front(log)[..n] == log[..n];
      LawfulPrefix(Front(log), n);
    }
  }

  /** The waits in seconds: 5, 10, 20, 40, 80, 160, and 300 from the seventh failure on. */
  ghost function Seconds(n: int): real {
    if n <= 1 then 5.0 else if n == 2 then 10.0 else if n == 3 then 20.0 else if n == 4 then 40.0
    else if n == 5 then 80.0 else if n == 6 then 160.0 else 300.0
  }

  lemma DelayInSeconds(n: nat)
    requires n >= 1
    ensures Delay(n) == Seconds(n)
  {
    DelayValues();
    if n > 7 {
      DelayMonotone(7, n);
    }
  }

  /** Over every run, a supervisor attempt after the n-th failure in a row comes at least
      min(5 x 2^(n-1), 300) seconds after it, for every n up to 1024. */
  lemma SupervisorWaits(events: seq<Event>, i: nat)
    requires Legal(START, events) && i < |Run(START, events).log|
    requires Run(START, events).log[i].Tried? && Run(START, events).log[i].bySupervisor
    ensures var log := Run(START, events).log;
            var n := Failures(log[..i]);
            1 <= n <= 1024 ==> log[i].at >= LatestFailure(log[..i]) + Seconds(n)
  {
    RunKeeps(START, events);
    var log := Run(START, events).log;
    LawfulPrefix(log, i + 1);
    assert Front(log[..i + 1]) == log[..i] && Last(log[..i + 1]) == log[i];
    if 1 <= Failures(log[..i]) <= LAST_COMPUTED {
      GateAfterFailure(log[..i]);
      DelayInSeconds(Failures(log[..i]));
    }
  }

  /** And it does not wait longer: in every reachable state a poll tries exactly if there is no
      link and no attempt under way, nothing holds it back, and that time is over. */
  lemma PollTriesIff(events: seq<Event>, t: real, held: bool)
    requires Legal(START, events) && Possible(Run(START, events), Poll(t, held))
    ensures var s := Run(START, events);
            var n := Failures(s.log);
            n <= 1024 ==>
              (Step(s, Poll(t, held)).log == s.log + [Tried(t, true)] <==>
                !s.up && !s.busy && !held && (if n == 0 then t >= 0.0 else t >= LatestFailure(s.log) + Seconds(n)))
    ensures var s := Run(START, events); Step(s, Poll(t, held)).log in {s.log, s.log + [Tried(t, true)]}
  {
    RunKeeps(START, events);
    var s := Run(START, events);
    if Failures(s.log) == 0 {
      OpenGate(s.log);
    } else if Failures(s.log) <= LAST_COMPUTED {
      GateAfterFailure(s.log);
      DelayInSeconds(Failures(s.log));
    }
  }

  lemma {:induction false} OpenGate(log: seq<Entry>)
    requires Failures(log) == 0
    ensures Gate(log) == 0.0
  {
    if log != [] && Last(log).Tried? {
      OpenGate(Front(log));
    }
  }

  /** Nobody tries while there is a link or an attempt under way, and an attempt that is over, either
      way, is not under way. */
  lemma NobodyTriesOverALink(s: Link, t: real, u: real, held: bool)
    ensures s.up || s.busy ==> Step(s, Poll(u, held)).log == s.log && Step(s, OnDemand(u)).log == s.log
    ensures Step(s, Finishes(t)).up && !Step(s, Finishes(t)).busy
    ensures !Step(s, Fails(t)).up && !Step(s, Fails(t)).busy && !Step(s, Drops(t)).up
    ensures Step(s, OnDemand(u)).log != s.log ==> Step(s, OnDemand(u)).busy
    ensures Step(s, Poll(u, held)).log != s.log ==> Step(s, Poll(u, held)).busy
  {
  }

  /** An on-demand connect asks nobody but the link and the attempt under way. */
  lemma OnDemandTriesIff(s: Link, t: real)
    ensures Step(s, OnDemand(t)).log == s.log + [Tried(t, false)] <==> !s.up && !s.busy
    ensures Step(s, OnDemand(t)).log in {s.log, s.log + [Tried(t, false)]}
  {
  }

  /** Success resets everything: the next poll may try at once, and the next failure waits 5 s. */
  lemma SuccessResets(s: Link, t: real, u: real)
    requires Possible(s, Connects(t)) && s.now >= 0.0 && t <= u
    ensures var after := Run(s, [Connects(t), Finishes(t), Drops(u), Poll(u, false)]);
            after.failures == 0 && after.busy && after.log != [] && Last(after.log) == Tried(u, true)
    ensures Step(Step(s, Connects(t)), Fails(u)).blockedUntil == u + 5.0
  {
    var s1 := Step(s, Connects(t));
    var s2 := Step(s1, Finishes(t));
    var s3 := Step(s2, Drops(u));
    var s4 := Step(s3, Poll(u, false));
    assert Run(s4, []) == s4;
    assert Run(s3, [Poll(u, false)]) == s4;
    assert Run(s2, [Drops(u), Poll(u, false)]) == s4;
    assert Run(s1, [Finishes(t), Drops(u), Poll(u, false)]) == s4;
    assert Pow2(0) == 1;
  }

  // ------------------------------------------------------------------
  // How often the supervisor can try
  // ------------------------------------------------------------------

  lemma {:induction false} Pow2Monotone(m: nat, n: nat)
    requires m <= n
    ensures Pow2(m) <= Pow2(n)
    decreases n
  {
    if m < n {
      Pow2Monotone(m, n - 1);
    }
  }

  /** Waits never shrink. */
  lemma DelayMonotone(m: nat, n: nat)
    requires 1 <= m <= n
    ensures Delay(m) <= Delay(n)
  {
    Pow2Monotone(m - 1, n - 1);
  }

  lemma DelayValues()
    ensures Delay(1) == 5.0 && Delay(2) == 10.0 && Delay(3) == 20.0 && Delay(4) == 40.0
    ensures Delay(5) == 80.0 && Delay(6) == 160.0 && Delay(7) == 300.0
  {
  }

  /** The least time k retries take. */
  function Waited(k: nat): real {
    if k == 0 then 0.0 else Waited(k - 1) + Delay(k)
  }

  lemma {:induction false} WaitedClosedForm(k: nat)
    requires k >= 6
    ensures Waited(k) == 315.0 + 300.0 * (k - 6) as real
  {
    DelayValues();
    if k == 6 {
      assert Waited(1) == 5.0 && Waited(2) == 15.0 && Waited(3) == 35.0;
      assert Waited(4) == 75.0 && Waited(5) == 155.0;
    } else {
      WaitedClosedForm(k - 1);
      DelayMonotone(7, k);
    }
  }

  ghost predicate RetriesSpread(log: seq<Entry>)
    requires Failures(log) >= 1
  {
    forall j :: 0 <= j < |Retries(log)| ==> Retries(log)[j] >= FirstFailure(log) + Waited(j + 1)
  }

  /** What the streak's log says at any time: the retries so far, the time, and the gate. */
  ghost predicate Streak(log: seq<Entry>)
    requires Failures(log) >= 1
  {
    var k, first := |Retries(log)|, FirstFailure(log);
    && RetriesSpread(log)
    && Last(log).at >= first + Waited(k)
    && (if Last(log).Tried? && Last(log).bySupervisor then Failures(log) >= k
        else Failures(log) >= k + 1 && Gate(log) >= first + Waited(k + 1))
  }

  lemma StreakBegins(log: seq<Entry>)
    requires Lawful(log) && Failures(log) == 1 && Last(log).Failed?
    ensures Streak(log)
  {
    NoRetries(Front(log));
    assert Waited(1) == Waited(0) + Delay(1);
  }

  lemma StreakFails(log: seq<Entry>)
    requires Lawful(log) && 2 <= Failures(log) <= LAST_COMPUTED && Last(log).Failed? && Streak(Front(log))
    ensures Streak(log)
  {
    var k := |Retries(Front(log))|;
    DelayMonotone(k + 1, Failures(log));
    assert Waited(k + 1) == Waited(k) + Delay(k + 1);
  }

  lemma StreakRetries(log: seq<Entry>)
    requires Lawful(log) && log != [] && Last(log).Tried? && Last(log).bySupervisor && Failures(log) >= 1 && Streak(Front(log))
    ensures Streak(log)
  {
    assert Retries(log) == Retries(Front(log)) + [Last(log).at];
  }

  lemma StreakTries(log: seq<Entry>)
    requires Lawful(log) && log != [] && Last(log).Tried? && !Last(log).bySupervisor && Failures(log) >= 1 && Streak(Front(log))
    ensures Streak(log)
  {
  }

  lemma {:induction false} StreakHolds(log: seq<Entry>)
    requires Lawful(log) && 1 <= Failures(log) <= LAST_COMPUTED
    ensures Streak(log)
  {
    if Failures(Front(log)) == 0 {
      StreakBegins(log);
    } else {
      StreakHolds(Front(log));
      if Last(log).Failed? {
        StreakFails(log);
      } else if Last(log).bySupervisor {
        StreakRetries(log);
      } else {
        StreakTries(log);
      }
    }
  }

  lemma NoRetries(log: seq<Entry>)
    requires Failures(log) == 0
    ensures Retries(log) == []
  {
  }

  /** Over every run, the supervisor's (j+1)-th retry of a streak comes at least 5 + 10 + ... of
      its delays after the streak's first failure; so of the retries within T seconds of it there
      are at most 6 + T/300, and 7 + T/300 attempts with the first one. */
  lemma AttemptsAreBounded(events: seq<Event>, j: nat, T: real)
    requires Legal(START, events)
    requires 1 <= Failures(Run(START, events).log) <= LAST_COMPUTED
    requires j < |Retries(Run(START, events).log)|
    ensures var log := Run(START, events).log;
            && Retries(log)[j] >= FirstFailure(log) + Waited(j + 1)
            && (0.0 <= T && Retries(log)[j] <= FirstFailure(log) + T ==> (j + 1) as real <= 6.0 + T / 300.0)
  {
    RunKeeps(START, events);
    var log := Run(START, events).log;
    StreakHolds(log);
    if j + 1 > 6 {
      WaitedClosedForm(j + 1);
    }
  }

  // ------------------------------------------------------------------
  // Where the backoff ends
  // ------------------------------------------------------------------

  /** n on-demand failures at time 0. */
  function Hammer(n: nat): seq<Event> {
    if n == 0 then [] else Hammer(n - 1) + [OnDemand(0.0), Fails(0.0)]
  }

  lemma {:induction false} RunAppend(s: Link, a: seq<Event>, b: seq<Event>)
    ensures Run(s, a + b) == Run(Run(s, a), b)
    ensures Legal(s, a + b) <==> Legal(s, a) && Legal(Run(s, a), b)
    decreases |a|
  {
    if a == [] {
      assert a + b == b;
    } else {
      assert (a + b)[1..] == a[1..] + b && (a + b)[0] == a[0];
      RunAppend(Step(s, a[0]), a[1..], b);
    }
  }

  lemma Pair(s: Link, e: Event, f: Event)
    ensures Run(s, [e, f]) == Step(Step(s, e), f)
    ensures Legal(s, [e, f]) <==> Possible(s, e) && Possible(Step(s, e), f)
  {
    assert [e, f][1..] == [f] && [f][1..] == [];
    var last := Step(Step(s, e), f);
    assert Run(last, []) == last && Legal(last, []);
    assert Legal(Step(s, e), [f]) <==> Possible(Step(s, e), f);
  }

  lemma {:induction false} HammerFails(n: nat)
    ensures Legal(START, Hammer(n))
    ensures var s := Run(START, Hammer(n));
            && s.failures == n && !s.busy && !s.up && s.now == 0.0
            && (n >= LAST_COMPUTED ==> s.blockedUntil == 300.0)
  {
    if n > 0 {
      HammerFails(n - 1);
      var s := Run(START, Hammer(n - 1));
      RunAppend(START, Hammer(n - 1), [OnDemand(0.0), Fails(0.0)]);
      Pair(s, OnDemand(0.0), Fails(0.0));
      if n == LAST_COMPUTED {
        DelayMonotone(7, n);
        DelayValues();
      }
    }
  }

  /** For every n past 1024 there is a run in which the supervisor tries only 200 seconds after
      the n-th failure in a row, so 1024 is the exact limit of SupervisorWaits. */
  lemma BackoffEndsPast1024(n: nat)
    requires n > LAST_COMPUTED
    ensures exists events ::
              && Legal(START, events)
              && var log := Run(START, events).log;
                 && |log| >= 2 && Last(log) == Tried(300.0, true)
                 && Failures(Front(log)) == n && Last(Front(log)) == Failed(100.0)
  {
    var base := Hammer(n - 1);
    HammerFails(n - 1);
    var s := Run(START, base);
    RunKeeps(START, base);
    var last := [OnDemand(100.0), Fails(100.0)];
    RunAppend(START, base, last);
    Pair(s, OnDemand(100.0), Fails(100.0));
    var t := Run(START, base + last);
    RunKeeps(START, base + last);
    RunAppend(START, base + last, [Poll(300.0, false)]);
    assert [Poll(300.0, false)][1..] == [];
    assert Run(Step(t, Poll(300.0, false)), []) == Step(t, Poll(300.0, false));
    Grow(t.log, Tried(300.0, true));
    Grow(Step(s, OnDemand(100.0)).log, Failed(100.0));
    assert Legal(START, base + last + [Poll(300.0, false)]);
  }
}
