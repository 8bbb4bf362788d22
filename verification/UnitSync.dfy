/** The settings-sync protocol of coordinator/connection.py.

    Three parties move the three synchronised settings: the user (an options change), the
    machine (an unsolicited unit report, command 8015) and the push task, which delivers queued
    changes one acknowledged SET at a time under a lock. A step is a stretch of code between
    two awaits; any party may step at any time. */
module UnitSync {
  import opened Basics

  // ------------------------------------------------------------------
  // Settings
  // ------------------------------------------------------------------

  datatype Key = Weight | Temp | Water

  datatype Setting = Text(text: string) | Number(number: int)

  datatype PerKey<T> = PerKey(weight: T, temp: T, water: T) {
    function Get(k: Key): T {
      match k
      case Weight => weight
      case Temp => temp
      case Water => water
    }

    function Put(k: Key, v: T): PerKey<T> {
      match k
      case Weight => this.(weight := v)
      case Temp => this.(temp := v)
      case Water => this.(water := v)
    }
  }

  /** The payload number of a SET (8005, 8010, 4508). Unknown unit names go out as the default
      unit, as in the source's table lookups. */
  function Code(k: Key, v: Setting): int {
    match v
    case Number(n) => n
    case Text(t) =>
      match k
      case Weight => if t == "ml" then 0 else if t == "oz" then 2 else 1
      case Temp => if t == "f" then 0 else 1
      case Water => 0
  }

  /** The setting a raw value of an 8015 report stands for, if any. */
  function FromRaw(k: Key, raw: Option<int>): Option<Setting> {
    match raw
    case None => None
    case Some(n) =>
      match k
      case Weight => if n == 0 then Some(Text("ml")) else if n == 1 then Some(Text("g"))
                     else if n == 2 then Some(Text("oz")) else None
      case Temp => if n == 0 then Some(Text("f")) else if n == 1 then Some(Text("c")) else None
      case Water => if n == 0 || n == 1 then Some(Number(n)) else None
  }

  const PUSH_ORDER: seq<Key> := [Weight, Temp, Water]

  function Rank(k: Key): (r: nat)
    ensures r < 3 && PUSH_ORDER[r] == k
  {
    match k case Weight => 0 case Temp => 1 case Water => 2
  }

  // ------------------------------------------------------------------
  // States, events and the log
  // ------------------------------------------------------------------

  /** Who holds the push lock: nobody, a push waiting for the echo of one SET or resting before it
      sends the SET again, or a push waiting for its closing back-to-home command. */
  datatype Flight =
    | Free
    | Sending(key: Key, code: int, asleep: bool, attempt: nat, resting: bool)
    | Homing

  datatype Entry =
    | UserSet(key: Key, value: Setting)
    | Adopted(key: Key, value: Setting)
    | WireSet(key: Key, code: int)
    | Finished(key: Key, code: int, acked: bool)
    | Cleared(key: Key)
    | Home

  datatype State = State(vals: PerKey<Setting>, pending: set<Key>, flight: Flight, log: seq<Entry>)

  function Start(vals: PerKey<Setting>): State { State(vals, {}, Free, []) }

  datatype Event =
    | UserChange(options: PerKey<Option<Setting>>)
    | Report(raws: PerKey<Option<int>>)
    | StartPush(asleep: bool)   // a connect or a scheduled push reaches the free lock
    | Echo(asleep: bool)        // the SET in flight is echoed
    | Silence(asleep: bool)     // the wait for its echo times out
    | Rested                    // the delay before a resend is over
    | Break                     // the send raises anything else
    | HomeDone

  function SendLimit(asleep: bool): nat { if asleep then 3 else 2 }

  function UserKey(s: State, k: Key, o: Option<Setting>): State {
    if o.Some? && o.value != s.vals.Get(k) then
      s.(vals := s.vals.Put(k, o.value), pending := s.pending + {k}, log := s.log + [UserSet(k, o.value)])
    else s
  }

  function Adopt(s: State, k: Key, v: Setting): State {
    s.(vals := s.vals.Put(k, v), log := s.log + [Adopted(k, v)])
  }

  function ReportKey(s: State, k: Key, raw: Option<int>): State {
    var v := FromRaw(k, raw);
    if v.Some? && v.value != s.vals.Get(k) && k !in s.pending then Adopt(s, k, v.value) else s
  }

  /** The rest of the push loop from position `from`: the next pending key goes out, or the
      batch ends. */
  function Advance(s: State, from: nat, sent: bool, asleep: bool): State
    requires from <= 3
    decreases 3 - from
  {
    if from == 3 then
      if sent then s.(flight := Homing, log := s.log + [Home]) else s.(flight := Free)
    else
      var k := PUSH_ORDER[from];
      if k in s.pending then
        var code := Code(k, s.vals.Get(k));
        s.(flight := Sending(k, code, asleep, 1, false), log := s.log + [WireSet(k, code)])
      else
        Advance(s, from + 1, sent, asleep)
  }

  /** One send is over, acknowledged or given up on. */
  function Finish(s: State, acked: bool): State
    requires s.flight.Sending?
  {
    var k, code := s.flight.key, s.flight.code;
    var over := s.(log := s.log + [Finished(k, code, acked)]);
    if Code(k, s.vals.Get(k)) == code then
      over.(pending := s.pending - {k}, log := over.log + [Cleared(k)])
    else over
  }

  predicate Awaiting(f: Flight) { f.Sending? && !f.resting }

  /** The same payload goes out again. */
  function Resend(s: State): State
    requires s.flight.Sending?
  {
    s.(flight := s.flight.(attempt := s.flight.attempt + 1, resting := false),
       log := s.log + [WireSet(s.flight.key, s.flight.code)])
  }

  function Step(s: State, e: Event): State {
    match e
    case UserChange(o) =>
      UserKey(UserKey(UserKey(s, Weight, o.weight), Temp, o.temp), Water, o.water)
    case Report(r) =>
      ReportKey(ReportKey(ReportKey(s, Weight, r.weight), Temp, r.temp), Water, r.water)
    case StartPush(asleep) =>
      if s.flight.Free? then Advance(s, 0, false, asleep) else s
    case Echo(asleep) =>
      if Awaiting(s.flight) then Advance(Finish(s, true), Rank(s.flight.key) + 1, true, asleep) else s
    case Silence(asleep) =>
      if !Awaiting(s.flight) then s
      else if s.flight.attempt >= SendLimit(s.flight.asleep) then
        Advance(Finish(s, false), Rank(s.flight.key) + 1, true, asleep)
      else if s.flight.asleep then s.(flight := s.flight.(resting := true))
      else Resend(s)
    case Rested =>
      if s.flight.Sending? && s.flight.resting then Resend(s) else s
    case Break =>
      if s.flight.Free? then s else s.(flight := Free)
    case HomeDone =>
      if s.flight.Homing? then s.(flight := Free) else s
  }

  function Run(s: State, events: seq<Event>): State
    decreases |events|
  {
    if events == [] then s else Run(Step(s, events[0]), events[1..])
  }

  // ------------------------------------------------------------------
  // Reading the log
  // ------------------------------------------------------------------

  /** A user change of the key has not been cleared yet. */
  ghost predicate Open(log: seq<Entry>, k: Key) {
    log != [] && (|| (Last(log).UserSet? && Last(log).key == k)
                  || (!(Last(log).Cleared? && Last(log).key == k) && Open(Front(log), k)))
  }

  /** The user's latest value for the key. */
  ghost function LatestUser(log: seq<Entry>, k: Key): Option<Setting> {
    if log == [] then None
    else if Last(log).UserSet? && Last(log).key == k then Some(Last(log).value)
    else LatestUser(Front(log), k)
  }

  /** The codes the user has asked for since the key was last cleared. */
  ghost function Asked(log: seq<Entry>, k: Key): set<int> {
    if log == [] then {}
    else if Last(log).UserSet? && Last(log).key == k then Asked(Front(log), k) + {Code(k, Last(log).value)}
    else if Last(log).Cleared? && Last(log).key == k then {}
    else Asked(Front(log), k)
  }

  ghost predicate Touched(log: seq<Entry>, k: Key) {
    log != [] && (|| ((Last(log).UserSet? || Last(log).Adopted?) && Last(log).key == k)
                  || Touched(Front(log), k))
  }

  /** The last code a finished SET carried or an adopted report gave for the key. */
  ghost function Settled(log: seq<Entry>, k: Key): Option<int> {
    if log == [] then None
    else if Last(log).Finished? && Last(log).key == k then Some(Last(log).code)
    else if Last(log).Adopted? && Last(log).key == k then Some(Code(k, Last(log).value))
    else Settled(Front(log), k)
  }

  /** The SET most recently put on the wire. */
  ghost function OnWire(log: seq<Entry>): Option<(Key, int)> {
    if log == [] then None
    else if Last(log).WireSet? then Some((Last(log).key, Last(log).code))
    else OnWire(Front(log))
  }

  /** What an entry may follow. */
  ghost predicate Follows(log: seq<Entry>, e: Entry) {
    match e
    case UserSet(_, _) => true
    case Adopted(k, _) => !Open(log, k)
    case WireSet(k, c) => Open(log, k) && c in Asked(log, k)
    case Finished(k, c, _) => Open(log, k) && OnWire(log) == Some((k, c))
    case Cleared(k) =>
      && log != [] && Last(log).Finished? && Last(log).key == k
      && LatestUser(log, k).Some? && Last(log).code == Code(k, LatestUser(log, k).value)
    case Home => true
  }

  ghost predicate Lawful(log: seq<Entry>) {
    log == [] || (Lawful(Front(log)) && Follows(Front(log), Last(log)))
  }

  // ------------------------------------------------------------------
  // The invariant
  // ------------------------------------------------------------------

  ghost predicate KeyInvariant(init: PerKey<Setting>, s: State, k: Key) {
    && (k in s.pending <==> Open(s.log, k))
    && (Open(s.log, k) ==> LatestUser(s.log, k) == Some(s.vals.Get(k)) && Code(k, s.vals.Get(k)) in Asked(s.log, k))
    && (!Touched(s.log, k) ==> s.vals.Get(k) == init.Get(k))
    && (Touched(s.log, k) && k !in s.pending ==> Settled(s.log, k) == Some(Code(k, s.vals.Get(k))))
  }

  ghost predicate FlightInvariant(s: State) {
    s.flight.Sending? ==>
      && s.flight.key in s.pending
      && s.flight.code in Asked(s.log, s.flight.key)
      && OnWire(s.log) == Some((s.flight.key, s.flight.code))
      && 1 <= s.flight.attempt <= SendLimit(s.flight.asleep)
      && (s.flight.resting ==> s.flight.attempt < SendLimit(s.flight.asleep))
  }

  ghost predicate Invariant(init: PerKey<Setting>, s: State) {
    && Lawful(s.log)
    && FlightInvariant(s)
    && forall k :: KeyInvariant(init, s, k)
  }

  /** An entry about one key leaves what the log says about the others alone. */
  lemma Unrelated(log: seq<Entry>, e: Entry, j: Key)
    requires e.Home? || e.key != j
    ensures Open(log + [e], j) == Open(log, j) && LatestUser(log + [e], j) == LatestUser(log, j)
    ensures Asked(log + [e], j) == Asked(log, j) && Touched(log + [e], j) == Touched(log, j)
    ensures Settled(log + [e], j) == Settled(log, j)
  {
    Grow(log, e);
  }

  lemma UserKeyOwn(init: PerKey<Setting>, s: State, k: Key, v: Setting)
    requires KeyInvariant(init, s, k) && v != s.vals.Get(k)
    ensures KeyInvariant(init, UserKey(s, k, Some(v)), k)
  {
    Grow(s.log, UserSet(k, v));
    assert s.vals.Put(k, v).Get(k) == v;
  }

  lemma UserKeyOther(init: PerKey<Setting>, s: State, k: Key, v: Setting, j: Key)
    requires KeyInvariant(init, s, j) && v != s.vals.Get(k) && j != k
    ensures KeyInvariant(init, UserKey(s, k, Some(v)), j)
  {
    Unrelated(s.log, UserSet(k, v), j);
    assert s.vals.Put(k, v).Get(j) == s.vals.Get(j);
  }

  lemma UserKeyKeeps(init: PerKey<Setting>, s: State, k: Key, o: Option<Setting>)
    requires Invariant(init, s)
    ensures Invariant(init, UserKey(s, k, o))
  {
    if o.Some? && o.value != s.vals.Get(k) {
      Grow(s.log, UserSet(k, o.value));
      forall j
        ensures KeyInvariant(init, UserKey(s, k, o), j)
      {
        assert KeyInvariant(init, s, j);
        if j == k {
          UserKeyOwn(init, s, k, o.value);
        } else {
          UserKeyOther(init, s, k, o.value, j);
        }
      }
    }
  }

  lemma AdoptOwn(init: PerKey<Setting>, s: State, k: Key, v: Setting)
    requires KeyInvariant(init, s, k) && k !in s.pending
    ensures KeyInvariant(init, Adopt(s, k, v), k)
  {
    Grow(s.log, Adopted(k, v));
    assert s.vals.Put(k, v).Get(k) == v;
  }

  lemma AdoptOther(init: PerKey<Setting>, s: State, k: Key, v: Setting, j: Key)
    requires KeyInvariant(init, s, j) && j != k
    ensures KeyInvariant(init, Adopt(s, k, v), j)
  {
    Unrelated(s.log, Adopted(k, v), j);
    assert s.vals.Put(k, v).Get(j) == s.vals.Get(j);
  }

  lemma AdoptKeeps(init: PerKey<Setting>, s: State, k: Key, v: Setting)
    requires Invariant(init, s) && k !in s.pending
    ensures Invariant(init, Adopt(s, k, v))
  {
    Grow(s.log, Adopted(k, v));
    assert KeyInvariant(init, s, k);
    forall j
      ensures KeyInvariant(init, Adopt(s, k, v), j)
    {
      assert KeyInvariant(init, s, j);
      if j == k {
        AdoptOwn(init, s, k, v);
      } else {
        AdoptOther(init, s, k, v, j);
      }
    }
  }

  lemma ReportKeyKeeps(init: PerKey<Setting>, s: State, k: Key, raw: Option<int>)
    requires Invariant(init, s)
    ensures Invariant(init, ReportKey(s, k, raw))
  {
    var v := FromRaw(k, raw);
    if v.Some? && v.value != s.vals.Get(k) && k !in s.pending {
      AdoptKeeps(init, s, k, v.value);
    }
  }

  lemma {:induction false} AdvanceKeeps(init: PerKey<Setting>, s: State, from: nat, sent: bool, asleep: bool)
    requires from <= 3 && Invariant(init, s.(flight := Free))
    ensures Invariant(init, Advance(s, from, sent, asleep))
    decreases 3 - from
  {
    var free := s.(flight := Free);
    if from == 3 {
      Grow(s.log, Home);
      forall j
        ensures KeyInvariant(init, Advance(s, from, sent, asleep), j)
      {
        assert KeyInvariant(init, free, j);
      }
    } else {
      var k := PUSH_ORDER[from];
      assert KeyInvariant(init, free, k);
      if k in s.pending {
        Grow(s.log, WireSet(k, Code(k, s.vals.Get(k))));
        forall j
          ensures KeyInvariant(init, Advance(s, from, sent, asleep), j)
        {
          assert KeyInvariant(init, free, j);
        }
      } else {
        AdvanceKeeps(init, s, from + 1, sent, asleep);
      }
    }
  }

  lemma FinishedKeeps(init: PerKey<Setting>, s: State, acked: bool)
    requires Invariant(init, s) && s.flight.Sending?
    ensures Invariant(init, s.(flight := Free, log := s.log + [Finished(s.flight.key, s.flight.code, acked)]))
  {
    var e := Finished(s.flight.key, s.flight.code, acked);
    assert KeyInvariant(init, s, s.flight.key);
    Grow(s.log, e);
    forall j
      ensures KeyInvariant(init, s.(flight := Free, log := s.log + [e]), j)
    {
      assert KeyInvariant(init, s, j);
      if j != s.flight.key {
        Unrelated(s.log, e, j);
      }
    }
  }

  lemma ClearedKeeps(init: PerKey<Setting>, s: State, k: Key)
    requires Invariant(init, s) && s.flight.Free? && k in s.pending
    requires s.log != [] && Last(s.log).Finished? && Last(s.log).key == k
    requires Last(s.log).code == Code(k, s.vals.Get(k))
    ensures Invariant(init, s.(pending := s.pending - {k}, log := s.log + [Cleared(k)]))
  {
    assert KeyInvariant(init, s, k);
    Grow(s.log, Cleared(k));
    forall j
      ensures KeyInvariant(init, s.(pending := s.pending - {k}, log := s.log + [Cleared(k)]), j)
    {
      assert KeyInvariant(init, s, j);
      if j != k {
        Unrelated(s.log, Cleared(k), j);
      }
    }
  }

  lemma FinishKeeps(init: PerKey<Setting>, s: State, acked: bool)
    requires Invariant(init, s) && s.flight.Sending?
    ensures Invariant(init, Finish(s, acked).(flight := Free))
  {
    var e := Finished(s.flight.key, s.flight.code, acked);
    var over := s.(flight := Free, log := s.log + [e]);
    FinishedKeeps(init, s, acked);
    Grow(s.log, e);
    if Code(s.flight.key, s.vals.Get(s.flight.key)) == s.flight.code {
      ClearedKeeps(init, over, s.flight.key);
      assert Finish(s, acked).(flight := Free)
          == over.(pending := over.pending - {s.flight.key}, log := over.log + [Cleared(s.flight.key)]);
    }
  }

  lemma ResendKeeps(init: PerKey<Setting>, s: State)
    requires Invariant(init, s) && s.flight.Sending? && s.flight.attempt < SendLimit(s.flight.asleep)
    ensures Invariant(init, Resend(s))
  {
    Grow(s.log, WireSet(s.flight.key, s.flight.code));
    assert KeyInvariant(init, s, s.flight.key);
    forall j
      ensures KeyInvariant(init, Resend(s), j)
    {
      assert KeyInvariant(init, s, j);
    }
  }

  lemma RestKeeps(init: PerKey<Setting>, s: State)
    requires Invariant(init, s) && s.flight.Sending? && s.flight.attempt < SendLimit(s.flight.asleep)
    ensures Invariant(init, s.(flight := s.flight.(resting := true)))
  {
    forall j
      ensures KeyInvariant(init, s.(flight := s.flight.(resting := true)), j)
    {
      assert KeyInvariant(init, s, j);
    }
  }

  lemma FlightOnly(init: PerKey<Setting>, s: State, f: Flight)
    requires Invariant(init, s) && !f.Sending?
    ensures Invariant(init, s.(flight := f))
  {
    forall j
      ensures KeyInvariant(init, s.(flight := f), j)
    {
      assert KeyInvariant(init, s, j);
    }
  }

  lemma UserChangeKeeps(init: PerKey<Setting>, s: State, o: PerKey<Option<Setting>>)
    requires Invariant(init, s)
    ensures Invariant(init, Step(s, UserChange(o)))
  {
    UserKeyKeeps(init, s, Weight, o.weight);
    var s1 := UserKey(s, Weight, o.weight);
    UserKeyKeeps(init, s1, Temp, o.temp);
    UserKeyKeeps(init, UserKey(s1, Temp, o.temp), Water, o.water);
  }

  lemma ReportKeeps(init: PerKey<Setting>, s: State, r: PerKey<Option<int>>)
    requires Invariant(init, s)
    ensures Invariant(init, Step(s, Report(r)))
  {
    ReportKeyKeeps(init, s, Weight, r.weight);
    var s1 := ReportKey(s, Weight, r.weight);
    ReportKeyKeeps(init, s1, Temp, r.temp);
    ReportKeyKeeps(init, ReportKey(s1, Temp, r.temp), Water, r.water);
  }

  lemma SendOverKeeps(init: PerKey<Setting>, s: State, acked: bool, asleep: bool)
    requires Invariant(init, s) && s.flight.Sending?
    ensures Invariant(init, Advance(Finish(s, acked), Rank(s.flight.key) + 1, true, asleep))
  {
    FinishKeeps(init, s, acked);
    AdvanceKeeps(init, Finish(s, acked), Rank(s.flight.key) + 1, true, asleep);
  }

  lemma SilenceKeeps(init: PerKey<Setting>, s: State, asleep: bool)
    requires Invariant(init, s)
    ensures Invariant(init, Step(s, Silence(asleep)))
  {
    if Awaiting(s.flight) {
      if s.flight.attempt >= SendLimit(s.flight.asleep) {
        SendOverKeeps(init, s, false, asleep);
      } else if s.flight.asleep {
        RestKeeps(init, s);
      } else {
        ResendKeeps(init, s);
      }
    }
  }

  lemma StepKeeps(init: PerKey<Setting>, s: State, e: Event)
    requires Invariant(init, s)
    ensures Invariant(init, Step(s, e))
  {
    match e
    case UserChange(o) => UserChangeKeeps(init, s, o);
    case Report(r) => ReportKeeps(init, s, r);
    case StartPush(asleep) =>
      if s.flight.Free? {
        FlightOnly(init, s, Free);
        AdvanceKeeps(init, s, 0, false, asleep);
      }
    case Echo(asleep) =>
      if Awaiting(s.flight) {
        SendOverKeeps(init, s, true, asleep);
      }
    case Silence(asleep) => SilenceKeeps(init, s, asleep);
    case Rested =>
      if s.flight.Sending? && s.flight.resting {
        ResendKeeps(init, s);
      }
    case Break => FlightOnly(init, s, Free);
    case HomeDone => FlightOnly(init, s, Free);
  }

  lemma {:induction false} RunKeeps(init: PerKey<Setting>, s: State, events: seq<Event>)
    requires Invariant(init, s)
    ensures Invariant(init, Run(s, events))
    decreases |events|
  {
    if events != [] {
      StepKeeps(init, s, events[0]);
      RunKeeps(init, Step(s, events[0]), events[1..]);
    }
  }

  lemma Reachable(init: PerKey<Setting>, events: seq<Event>)
    ensures Invariant(init, Run(Start(init), events))
  {
    RunKeeps(init, Start(init), events);
  }

  // ------------------------------------------------------------------
  // Settings agreement
  // ------------------------------------------------------------------

  /** In every interleaving each key is pending, or untouched since the start, or holds what the
      last finished SET carried or the last adopted report gave; and the key in flight is
      pending. */
  lemma SettingsAgreement(init: PerKey<Setting>, events: seq<Event>, k: Key)
    ensures var s := Run(Start(init), events);
            && (|| k in s.pending
                || (!Touched(s.log, k) && s.vals.Get(k) == init.Get(k))
                || Settled(s.log, k) == Some(Code(k, s.vals.Get(k))))
            && (s.flight.Sending? ==> s.flight.key in s.pending)
  {
    Reachable(init, events);
    assert KeyInvariant(init, Run(Start(init), events), k);
  }

  // ------------------------------------------------------------------
  // No lost user change
  // ------------------------------------------------------------------

  lemma {:induction false} LawfulAt(log: seq<Entry>, j: nat)
    requires Lawful(log) && j < |log|
    ensures Lawful(log[..j]) && Follows(log[..j], log[j])
    decreases |log|
  {
    if j < |log| - 1 {
      LawfulAt(Front(log), j);
      assert Front(log)[..j] == log[..j];
    }
  }

  ghost predicate NoneOf(log: seq<Entry>, i: int, j: int, e: Entry)
    requires 0 <= i <= j <= |log|
  {
    forall m :: i <= m < j ==> log[m] != e
  }

  ghost predicate NoUserSet(log: seq<Entry>, i: int, j: int, k: Key)
    requires 0 <= i <= j <= |log|
  {
    forall m :: i <= m < j ==> !(log[m].UserSet? && log[m].key == k)
  }

  lemma {:induction false} StillOpen(log: seq<Entry>, i: nat, k: Key)
    requires i < |log| && log[i].UserSet? && log[i].key == k
    requires NoneOf(log, i + 1, |log|, Cleared(k))
    ensures Open(log, k)
    decreases |log|
  {
    if i < |log| - 1 {
      assert log[|log| - 1] != Cleared(k);
      StillOpen(Front(log), i, k);
    }
  }

  lemma {:induction false} FindLatestUser(log: seq<Entry>, k: Key) returns (i: nat)
    requires LatestUser(log, k).Some?
    ensures i < |log| && log[i] == UserSet(k, LatestUser(log, k).value)
    ensures NoUserSet(log, i + 1, |log|, k)
    decreases |log|
  {
    if Last(log).UserSet? && Last(log).key == k {
      i := |log| - 1;
    } else {
      i := FindLatestUser(Front(log), k);
      assert forall m :: 0 <= m < |log| - 1 ==> Front(log)[m] == log[m];
    }
  }

  lemma {:induction false} FindAsked(log: seq<Entry>, k: Key, c: int) returns (i: nat)
    requires c in Asked(log, k)
    ensures i < |log| && log[i].UserSet? && log[i].key == k && Code(k, log[i].value) == c
    ensures NoneOf(log, i + 1, |log|, Cleared(k))
    decreases |log|
  {
    if Last(log).UserSet? && Last(log).key == k && Code(k, Last(log).value) == c {
      i := |log| - 1;
    } else {
      i := FindAsked(Front(log), k, c);
      assert forall m :: 0 <= m < |log| - 1 ==> Front(log)[m] == log[m];
    }
  }

  /** From a user change of a key until the key is cleared, no machine report alters it. */
  lemma NoReportWhilePending(init: PerKey<Setting>, events: seq<Event>, i: nat, j: nat, k: Key)
    requires var log := Run(Start(init), events).log;
             i < j < |log| && log[i].UserSet? && log[i].key == k && log[j].Adopted? && log[j].key == k
    ensures exists m :: i < m < j && Run(Start(init), events).log[m] == Cleared(k)
  {
    Reachable(init, events);
    var log := Run(Start(init), events).log;
    LawfulAt(log, j);
    if NoneOf(log[..j], i + 1, j, Cleared(k)) {
      StillOpen(log[..j], i, k);
      assert false;
    }
    var m :| i + 1 <= m < j && log[..j][m] == Cleared(k);
    assert log[m] == Cleared(k);
  }

  /** The SET whose completion clears a key carried the user's latest value for it: the entry
      before the clearing is that completion, and the last user change before it asked for
      exactly the code that was carried. */
  lemma ClearedByLatestValue(init: PerKey<Setting>, events: seq<Event>, j: nat, k: Key) returns (i: nat)
    requires j < |Run(Start(init), events).log| && Run(Start(init), events).log[j] == Cleared(k)
    ensures var log := Run(Start(init), events).log;
            && i < j && log[i].UserSet? && log[i].key == k && NoUserSet(log, i + 1, j, k)
            && log[j - 1].Finished? && log[j - 1].key == k && log[j - 1].code == Code(k, log[i].value)
  {
    Reachable(init, events);
    var log := Run(Start(init), events).log;
    LawfulAt(log, j);
    i := FindLatestUser(log[..j], k);
    assert forall m :: 0 <= m < j ==> log[..j][m] == log[m];
  }

  /** Every SET on the wire carries a value the user asked for and that has not been cleared
      since. */
  lemma EverySetWasAskedFor(init: PerKey<Setting>, events: seq<Event>, j: nat) returns (i: nat)
    requires j < |Run(Start(init), events).log| && Run(Start(init), events).log[j].WireSet?
    ensures var log := Run(Start(init), events).log;
            var k := log[j].key;
            && i < j && log[i].UserSet? && log[i].key == k
            && Code(k, log[i].value) == log[j].code
            && NoneOf(log, i + 1, j, Cleared(k))
  {
    Reachable(init, events);
    var log := Run(Start(init), events).log;
    LawfulAt(log, j);
    i := FindAsked(log[..j], log[j].key, log[j].code);
    assert forall m :: 0 <= m < j ==> log[..j][m] == log[m];
  }

  ghost predicate NoUserEntry(log: seq<Entry>) {
    forall i :: 0 <= i < |log| ==> !log[i].UserSet?
  }

  lemma {:induction false} AdvanceNoUser(s: State, from: nat, sent: bool, asleep: bool)
    requires from <= 3 && NoUserEntry(s.log)
    ensures NoUserEntry(Advance(s, from, sent, asleep).log)
    decreases 3 - from
  {
    if from < 3 {
      AdvanceNoUser(s, from + 1, sent, asleep);
    }
  }

  lemma StepNoUser(s: State, e: Event)
    requires NoUserEntry(s.log) && !e.UserChange?
    ensures NoUserEntry(Step(s, e).log)
  {
    match e
    case StartPush(asleep) => AdvanceNoUser(s, 0, false, asleep);
    case Echo(asleep) =>
      if Awaiting(s.flight) {
        AdvanceNoUser(Finish(s, true), Rank(s.flight.key) + 1, true, asleep);
      }
    case Silence(asleep) =>
      if Awaiting(s.flight) && s.flight.attempt >= SendLimit(s.flight.asleep) {
        AdvanceNoUser(Finish(s, false), Rank(s.flight.key) + 1, true, asleep);
      }
    case _ =>
  }

  lemma {:induction false} RunNoUser(s: State, events: seq<Event>)
    requires NoUserEntry(s.log) && forall i :: 0 <= i < |events| ==> !events[i].UserChange?
    ensures NoUserEntry(Run(s, events).log)
    decreases |events|
  {
    if events != [] {
      StepNoUser(s, events[0]);
      RunNoUser(Step(s, events[0]), events[1..]);
    }
  }

  /** As long as no user changes anything, no SET is ever sent, however often the link comes
      and goes. */
  lemma PlainReconnectSendsNothing(init: PerKey<Setting>, events: seq<Event>, j: nat)
    requires forall i :: 0 <= i < |events| ==> !events[i].UserChange?
    requires j < |Run(Start(init), events).log|
    ensures !Run(Start(init), events).log[j].WireSet?
  {
    RunNoUser(Start(init), events);
    if Run(Start(init), events).log[j].WireSet? {
      var i := EverySetWasAskedFor(init, events, j);
      assert false;
    }
  }

  /** An options write that matches the current values is an echo of the coordinator's own
      write and changes nothing. */
  lemma EchoedOptionsChangeNothing(s: State, o: PerKey<Option<Setting>>)
    requires forall k :: o.Get(k).Some? ==> o.Get(k).value == s.vals.Get(k)
    ensures Step(s, UserChange(o)) == s
  {
    assert o.Get(Weight) == o.weight && o.Get(Temp) == o.temp && o.Get(Water) == o.water;
  }

  // ------------------------------------------------------------------
  // One push delivers everything
  // ------------------------------------------------------------------

  /** Nothing pending is behind the push, and the SET in flight still carries the current value
      of its key. */
  ghost predicate OnTrack(s: State) {
    match s.flight
    case Sending(k, code, _, _, _) =>
      && code == Code(k, s.vals.Get(k)) && k in s.pending
      && forall j :: j in s.pending ==> Rank(k) <= Rank(j)
    case _ => s.pending == {}
  }

  predicate Undisturbed(e: Event) { !e.UserChange? && !e.Break? }

  lemma {:induction false} AdvanceOnTrack(s: State, from: nat, sent: bool, asleep: bool)
    requires from <= 3 && forall j :: j in s.pending ==> from <= Rank(j)
    ensures OnTrack(Advance(s, from, sent, asleep))
    decreases 3 - from
  {
    if from == 3 {
      assert forall j :: j !in s.pending;
    } else if PUSH_ORDER[from] !in s.pending {
      forall j | j in s.pending
        ensures from + 1 <= Rank(j)
      {
        assert PUSH_ORDER[Rank(j)] == j;
      }
      AdvanceOnTrack(s, from + 1, sent, asleep);
    } else {
      assert Rank(PUSH_ORDER[from]) == from;
    }
  }

  lemma FinishOnTrack(s: State, acked: bool)
    requires OnTrack(s) && s.flight.Sending?
    ensures forall j :: j in Finish(s, acked).pending ==> Rank(s.flight.key) + 1 <= Rank(j)
  {
    forall j | j in Finish(s, acked).pending
      ensures Rank(s.flight.key) + 1 <= Rank(j)
    {
      assert PUSH_ORDER[Rank(j)] == j && PUSH_ORDER[Rank(s.flight.key)] == s.flight.key;
    }
  }

  lemma StepOnTrack(s: State, e: Event)
    requires OnTrack(s) && Undisturbed(e)
    ensures OnTrack(Step(s, e))
  {
    match e
    case Report(r) =>
    case StartPush(asleep) =>
      if s.flight.Free? {
        AdvanceOnTrack(s, 0, false, asleep);
      }
    case Echo(asleep) =>
      if Awaiting(s.flight) {
        FinishOnTrack(s, true);
        AdvanceOnTrack(Finish(s, true), Rank(s.flight.key) + 1, true, asleep);
      }
    case Silence(asleep) =>
      if Awaiting(s.flight) && s.flight.attempt >= SendLimit(s.flight.asleep) {
        FinishOnTrack(s, false);
        AdvanceOnTrack(Finish(s, false), Rank(s.flight.key) + 1, true, asleep);
      }
    case Rested =>
    case HomeDone =>
  }

  lemma {:induction false} RunOnTrack(s: State, events: seq<Event>)
    requires OnTrack(s) && forall i :: 0 <= i < |events| ==> Undisturbed(events[i])
    ensures OnTrack(Run(s, events))
    decreases |events|
  {
    if events != [] {
      StepOnTrack(s, events[0]);
      RunOnTrack(Step(s, events[0]), events[1..]);
    }
  }

  /** Once a push has the lock, and nobody changes an option or breaks the link, it cannot let
      go of the lock with anything left pending, whatever is acknowledged and whatever the
      machine reports meanwhile. */
  lemma PushDeliversEverything(s: State, asleep: bool, events: seq<Event>)
    requires s.flight.Free? && forall i :: 0 <= i < |events| ==> Undisturbed(events[i])
    ensures var t := Run(Step(s, StartPush(asleep)), events);
            !t.flight.Sending? ==> t.pending == {}
  {
    AdvanceOnTrack(s, 0, false, asleep);
    RunOnTrack(Step(s, StartPush(asleep)), events);
  }

  // ------------------------------------------------------------------
  // Every step, in the numbers of the wire
  // ------------------------------------------------------------------

  /** The setting of a key that a raw number of an 8015 report names: the table of the protocol. */
  ghost predicate Names(k: Key, raw: int, v: Setting) {
    || (k == Weight && raw == 0 && v == Text("ml")) || (k == Weight && raw == 1 && v == Text("g"))
    || (k == Weight && raw == 2 && v == Text("oz"))
    || (k == Temp && raw == 0 && v == Text("f")) || (k == Temp && raw == 1 && v == Text("c"))
    || (k == Water && raw == 0 && v == Number(0)) || (k == Water && raw == 1 && v == Number(1))
  }

  /** The report says something about this key, and nothing of the user's is pending for it. */
  ghost predicate Heeded(s: State, raws: PerKey<Option<int>>, k: Key) {
    k !in s.pending && raws.Get(k).Some? && exists v :: Names(k, raws.Get(k).value, v)
  }

  /** The log entries of the keys whose values moved, in order. */
  ghost function Moves(before: PerKey<Setting>, after: PerKey<Setting>, entry: (Key, Setting) -> Entry): seq<Entry> {
    (if after.weight != before.weight then [entry(Weight, after.weight)] else [])
    + (if after.temp != before.temp then [entry(Temp, after.temp)] else [])
    + (if after.water != before.water then [entry(Water, after.water)] else [])
  }

  lemma TableIsRead(k: Key, raw: int, v: Setting)
    ensures Names(k, raw, v) <==> FromRaw(k, Some(raw)) == Some(v)
  {
  }

  lemma ReportOne(s: State, k: Key, raw: Option<int>)
    ensures var t := ReportKey(s, k, raw);
            && t.pending == s.pending && t.flight == s.flight
            && (forall j :: j != k ==> t.vals.Get(j) == s.vals.Get(j))
            && (k !in s.pending && FromRaw(k, raw).Some? ==> t.vals.Get(k) == FromRaw(k, raw).value)
            && (k in s.pending || FromRaw(k, raw).None? ==> t.vals.Get(k) == s.vals.Get(k))
            && t.log == s.log + if t.vals.Get(k) != s.vals.Get(k) then [Adopted(k, t.vals.Get(k))] else []
  {
  }

  /** The machine wins: after a report every key that is not pending and that the report speaks of
      holds the setting with the reported number, every other key what it held before, and the
      log says `Adopted` exactly for the keys that moved. */
  lemma ReportIsAdopted(s: State, raws: PerKey<Option<int>>)
    ensures var t := Step(s, Report(raws));
            && (forall k :: Heeded(s, raws, k) ==> Names(k, raws.Get(k).value, t.vals.Get(k)))
            && (forall k :: !Heeded(s, raws, k) ==> t.vals.Get(k) == s.vals.Get(k))
            && t.pending == s.pending && t.flight == s.flight
            && t.log == s.log + Moves(s.vals, t.vals, (k, v) => Adopted(k, v))
  {
    var s1 := ReportKey(s, Weight, raws.weight);
    var s2 := ReportKey(s1, Temp, raws.temp);
    ReportOne(s, Weight, raws.weight);
    ReportOne(s1, Temp, raws.temp);
    ReportOne(s2, Water, raws.water);
    forall k
      ensures Heeded(s, raws, k) <==> k !in s.pending && FromRaw(k, raws.Get(k)).Some?
      ensures Heeded(s, raws, k) ==> Names(k, raws.Get(k).value, FromRaw(k, raws.Get(k)).value)
    {
      ReportHeeded(s, raws, k);
    }
  }

  lemma ReportHeeded(s: State, raws: PerKey<Option<int>>, k: Key)
    ensures Heeded(s, raws, k) <==> k !in s.pending && FromRaw(k, raws.Get(k)).Some?
    ensures Heeded(s, raws, k) ==> Names(k, raws.Get(k).value, FromRaw(k, raws.Get(k)).value)
  {
    if raws.Get(k).Some? {
      var raw := raws.Get(k).value;
      if FromRaw(k, Some(raw)).Some? {
        TableIsRead(k, raw, FromRaw(k, Some(raw)).value);
      }
      if v :| Names(k, raw, v) {
        TableIsRead(k, raw, v);
      }
    }
  }

  /** A SET carries the number that a report would carry for the same setting, and the default's
      for a unit in no table. */
  lemma CodesAreTheReportedNumbers(k: Key, raw: int, v: Setting)
    ensures Names(k, raw, v) ==> Code(k, v) == raw
    ensures k != Water && v.Text? && (forall n :: !Names(k, n, v)) ==> Code(k, v) == 1
  {
    if k != Water && v.Text? && forall n :: !Names(k, n, v) {
      assert !Names(k, 0, v) && !Names(k, 1, v) && !Names(k, 2, v);
    }
  }

  lemma ChangeOne(s: State, k: Key, o: Option<Setting>)
    ensures var t := UserKey(s, k, o);
            && t.flight == s.flight
            && (forall j :: j != k ==> t.vals.Get(j) == s.vals.Get(j) && (j in t.pending <==> j in s.pending))
            && t.vals.Get(k) == (if o.Some? then o.value else s.vals.Get(k))
            && (k in t.pending <==> k in s.pending || t.vals.Get(k) != s.vals.Get(k))
            && t.log == s.log + if t.vals.Get(k) != s.vals.Get(k) then [UserSet(k, t.vals.Get(k))] else []
  {
  }

  /** The user wins at once: every option given is the value held, the others are as they were, and
      exactly the keys whose value moved are queued on top of those that were. */
  lemma ChangeIsQueued(s: State, o: PerKey<Option<Setting>>)
    ensures var t := Step(s, UserChange(o));
            && (forall k :: t.vals.Get(k) == if o.Get(k).Some? then o.Get(k).value else s.vals.Get(k))
            && (forall k :: k in t.pending <==> k in s.pending || t.vals.Get(k) != s.vals.Get(k))
            && t.flight == s.flight
            && t.log == s.log + Moves(s.vals, t.vals, (k, v) => UserSet(k, v))
  {
    var s1 := UserKey(s, Weight, o.weight);
    var s2 := UserKey(s1, Temp, o.temp);
    ChangeOne(s, Weight, o.weight);
    ChangeOne(s1, Temp, o.temp);
    ChangeOne(s2, Water, o.water);
  }

  /** The next key a push sends after the given one: the weight unit, then the temperature unit,
      then the water source, as far as they are pending. */
  ghost function NextKey(after: Option<Key>, pending: set<Key>): Option<Key> {
    if after.None? && Weight in pending then Some(Weight)
    else if (after.None? || after == Some(Weight)) && Temp in pending then Some(Temp)
    else if after != Some(Water) && Water in pending then Some(Water)
    else None
  }

  /** The state with `next` on the wire for the first time. */
  ghost predicate Sends(before: State, after: State, next: Key, asleep: bool) {
    && after.vals == before.vals && after.pending == before.pending
    && after.flight == Sending(next, Code(next, before.vals.Get(next)), asleep, 1, false)
    && after.log == before.log + [WireSet(next, Code(next, before.vals.Get(next)))]
  }

  /** A push that gets the lock sends the first pending key, if there is one; without the lock
      nothing happens. */
  lemma PushBegins(s: State, asleep: bool)
    ensures var t := Step(s, StartPush(asleep));
            && (s.flight.Free? && s.pending != {} ==> NextKey(None, s.pending).Some? && Sends(s, t, NextKey(None, s.pending).value, asleep))
            && (s.flight.Free? && s.pending == {} ==> t == s)
            && (!s.flight.Free? ==> t == s)
  {
    if s.flight.Free? {
      AdvanceSends(s, 0, false, asleep);
      if s.pending != {} {
        var k :| k in s.pending;
        assert k == Weight || k == Temp || k == Water;
      }
    }
  }

  lemma AdvanceSends(s: State, from: nat, sent: bool, asleep: bool)
    requires from <= 3
    ensures var next := NextKey(if from == 0 then None else Some(PUSH_ORDER[from - 1]), s.pending);
            var t := Advance(s, from, sent, asleep);
            && (next.Some? ==> Sends(s, t, next.value, asleep))
            && (next.None? ==> t == if sent then s.(flight := Homing, log := s.log + [Home]) else s.(flight := Free))
    decreases 3 - from
  {
    if from < 3 && PUSH_ORDER[from] !in s.pending {
      AdvanceSends(s, from + 1, sent, asleep);
    }
  }

  /** What ends a send, echoed or given up on: the key is cleared exactly if it still has the value
      that was carried, and the next pending key goes out, or the machine is sent home. */
  ghost predicate SendEnds(s: State, t: State, acked: bool, asleep: bool)
    requires s.flight.Sending?
  {
    var k, code := s.flight.key, s.flight.code;
    var clears := Code(k, s.vals.Get(k)) == code;
    var over := s.(pending := if clears then s.pending - {k} else s.pending,
                   log := s.log + [Finished(k, code, acked)] + if clears then [Cleared(k)] else []);
    var next := NextKey(Some(k), s.pending);
    if next.Some? then Sends(over, t, next.value, asleep) else t == over.(flight := Homing, log := over.log + [Home])
  }

  lemma FinishAdvances(s: State, acked: bool, asleep: bool)
    requires s.flight.Sending?
    ensures SendEnds(s, Advance(Finish(s, acked), Rank(s.flight.key) + 1, true, asleep), acked, asleep)
  {
    var k := s.flight.key;
    var over := Finish(s, acked);
    AdvanceSends(over, Rank(k) + 1, true, asleep);
    assert PUSH_ORDER[Rank(k)] == k;
    assert NextKey(Some(k), over.pending) == NextKey(Some(k), s.pending);
  }

  /** An echo ends the send in flight. */
  lemma EchoEndsTheSend(s: State, asleep: bool)
    ensures Awaiting(s.flight) ==> SendEnds(s, Step(s, Echo(asleep)), true, asleep)
    ensures !Awaiting(s.flight) ==> Step(s, Echo(asleep)) == s
  {
    if Awaiting(s.flight) {
      FinishAdvances(s, true, asleep);
    }
  }

  /** The same SET is on the wire once more. */
  ghost predicate SentAgain(s: State, t: State)
    requires s.flight.Sending?
  {
    && t.vals == s.vals && t.pending == s.pending
    && t.flight == Sending(s.flight.key, s.flight.code, s.flight.asleep, s.flight.attempt + 1, false)
    && t.log == s.log + [WireSet(s.flight.key, s.flight.code)]
  }

  /** Without an echo a SET to an awake machine is sent once more at once, and one to a machine that
      slept at the first send twice more, each time after a rest; then it is given up on. */
  lemma SilenceResends(init: PerKey<Setting>, events: seq<Event>, asleep: bool)
    ensures var s := Run(Start(init), events);
            var t := Step(s, Silence(asleep));
            Awaiting(s.flight) ==>
              && 1 <= s.flight.attempt <= (if s.flight.asleep then 3 else 2)
              && (!s.flight.asleep && s.flight.attempt == 1 ==> SentAgain(s, t))
              && (s.flight.asleep && s.flight.attempt in {1, 2} ==>
                    t == s.(flight := s.flight.(resting := true)) && SentAgain(s, Step(t, Rested)))
              && (s.flight.attempt == (if s.flight.asleep then 3 else 2) ==> SendEnds(s, t, false, asleep))
  {
    Reachable(init, events);
    var s := Run(Start(init), events);
    if Awaiting(s.flight) && s.flight.attempt >= SendLimit(s.flight.asleep) {
      FinishAdvances(s, false, asleep);
    }
  }

  /** A hard failure and the end of the way home free the lock and touch nothing else. */
  lemma LockIsFreed(s: State)
    ensures Step(s, Break) == s.(flight := Free)
    ensures s.flight.Homing? ==> Step(s, HomeDone) == s.(flight := Free)
  {
  }

  // ------------------------------------------------------------------
  // Options changes, all keys at once
  // ------------------------------------------------------------------

  function Said(k: Key, v: Setting, current: Setting): seq<Entry> { if v != current then [UserSet(k, v)] else [] }

  function Queued(k: Key, v: Setting, current: Setting): set<Key> { if v != current then {k} else {} }

  lemma UserKeyIs(s: State, k: Key, v: Setting)
    ensures UserKey(s, k, Some(v)) ==
            s.(vals := s.vals.Put(k, v), pending := s.pending + Queued(k, v, s.vals.Get(k)), log := s.log + Said(k, v, s.vals.Get(k)))
    ensures v == s.vals.Get(k) ==> UserKey(s, k, None) == UserKey(s, k, Some(v))
  {
  }

  function AllSaid(v: PerKey<Setting>, current: PerKey<Setting>): seq<Entry> {
    Said(Weight, v.weight, current.weight) + Said(Temp, v.temp, current.temp) + Said(Water, v.water, current.water)
  }

  function AllQueued(v: PerKey<Setting>, current: PerKey<Setting>): set<Key> {
    Queued(Weight, v.weight, current.weight) + Queued(Temp, v.temp, current.temp) + Queued(Water, v.water, current.water)
  }

  /** A whole options change at once; absent options stand for the current values. */
  lemma OptionsChange(s: State, o: PerKey<Option<Setting>>, v: PerKey<Setting>)
    requires v.weight == if o.weight.Some? then o.weight.value else s.vals.weight
    requires v.temp == if o.temp.Some? then o.temp.value else s.vals.temp
    requires v.water == if o.water.Some? then o.water.value else s.vals.water
    ensures Step(s, UserChange(o)) ==
            s.(vals := v, pending := s.pending + AllQueued(v, s.vals), log := s.log + AllSaid(v, s.vals))
  {
    UserKeyIs(s, Weight, v.weight);
    var s1 := UserKey(s, Weight, Some(v.weight));
    UserKeyIs(s1, Temp, v.temp);
    UserKeyIs(UserKey(s1, Temp, Some(v.temp)), Water, v.water);
    assert s.pending + AllQueued(v, s.vals) == s.pending + Queued(Weight, v.weight, s.vals.weight)
             + Queued(Temp, v.temp, s.vals.temp) + Queued(Water, v.water, s.vals.water);
    assert s.log + AllSaid(v, s.vals) == s.log + Said(Weight, v.weight, s.vals.weight)
             + Said(Temp, v.temp, s.vals.temp) + Said(Water, v.water, s.vals.water);
  }

  // ------------------------------------------------------------------
  // The coordinator
  // ------------------------------------------------------------------

  class Coordinator {
    var weightUnit: string
    var tempUnit: string
    var waterSource: int
    var pending: set<Key>
    var flight: Flight
    ghost var log: seq<Entry>

    ghost function View(): State
      reads this
    {
      State(PerKey(Text(weightUnit), Text(tempUnit), Number(waterSource)), pending, flight, log)
    }

    constructor (weight: string, temp: string, water: int)
      ensures View() == Start(PerKey(Text(weight), Text(temp), Number(water)))
    {
      weightUnit, tempUnit, waterSource := weight, temp, water;
      pending, flight, log := {}, Free, [];
    }

    /** _unit_push_command: command and payload of the SET for one key. */
    method UnitPushCommand(k: Key) returns (command: int, code: int)
      ensures command == match k case Weight => 8005 case Temp => 8010 case Water => 4508
      ensures code == Code(k, View().vals.Get(k))
    {
      match k
      case Weight => command, code := 8005, Code(Weight, Text(weightUnit));
      case Temp => command, code := 8010, Code(Temp, Text(tempUnit));
      case Water => command, code := 4508, waterSource;
    }

    /** _handle_unit_options_change. */
    method HandleUnitOptionsChange(weightOption: Option<string>, tempOption: Option<string>, waterOption: Option<int>)
      modifies this
      ensures View() == Step(old(View()), UserChange(PerKey(
        if weightOption.Some? then Some(Text(weightOption.value)) else None,
        if tempOption.Some? then Some(Text(tempOption.value)) else None,
        if waterOption.Some? then Some(Number(waterOption.value)) else None)))
    {
      var weight := if weightOption.Some? then weightOption.value else weightUnit;
      var temp := if tempOption.Some? then tempOption.value else tempUnit;
      var water := if waterOption.Some? then waterOption.value else waterSource;
      ghost var before, v := View(), PerKey(Text(weight), Text(temp), Number(water));
      OptionsChange(before, PerKey(
        if weightOption.Some? then Some(Text(weightOption.value)) else None,
        if tempOption.Some? then Some(Text(tempOption.value)) else None,
        if waterOption.Some? then Some(Number(waterOption.value)) else None), v);
      var changed := NoteChanges(weight, temp, water);
      if changed == {} {
        return;
      }
      weightUnit := weight;
      tempUnit := temp;
      waterSource := water;
      pending := pending + changed;
    }

    /** Which options differ from the current values. */
    method NoteChanges(weight: string, temp: string, water: int) returns (changed: set<Key>)
      modifies this`log
      ensures changed == AllQueued(PerKey(Text(weight), Text(temp), Number(water)), View().vals)
      ensures log == old(log) + AllSaid(PerKey(Text(weight), Text(temp), Number(water)), View().vals)
      ensures changed == {} ==> weight == weightUnit && temp == tempUnit && water == waterSource
    {
      changed := {};
      if weight != weightUnit {
        changed := changed + {Weight};
        log := log + [UserSet(Weight, Text(weight))];
      }
      if temp != tempUnit {
        changed := changed + {Temp};
        log := log + [UserSet(Temp, Text(temp))];
      }
      if water != waterSource {
        changed := changed + {Water};
        log := log + [UserSet(Water, Number(water))];
      }
    }

    /** _async_sync_units_from_machine: one 8015 report. */
    method SyncUnitsFromMachine(rawWeight: Option<int>, rawTemp: Option<int>, rawWater: Option<int>)
      modifies this
      ensures View() == Step(old(View()), Report(PerKey(rawWeight, rawTemp, rawWater)))
    {
      var weight := FromRaw(Weight, rawWeight);
      var temp := FromRaw(Temp, rawTemp);
      var water := FromRaw(Water, rawWater);
      if weight.Some? && weight.value != Text(weightUnit) && Weight !in pending {
        weightUnit := weight.value.text;
        log := log + [Adopted(Weight, weight.value)];
      }
      if temp.Some? && temp.value != Text(tempUnit) && Temp !in pending {
        tempUnit := temp.value.text;
        log := log + [Adopted(Temp, temp.value)];
      }
      if water.Some? && water.value != Number(waterSource) && Water !in pending {
        waterSource := water.value.number;
        log := log + [Adopted(Water, water.value)];
      }
    }

    /** The push loop of _apply_unit_preferences from one position to its next await. */
    method AdvancePush(from: nat, sent: bool, asleep: bool)
      requires from <= 3
      modifies this
      ensures View() == Advance(old(View()), from, sent, asleep)
    {
      var i := from;
      while i < 3
        invariant from <= i <= 3
        invariant View() == old(View())
        invariant Advance(View(), i, sent, asleep) == Advance(old(View()), from, sent, asleep)
      {
        var key := PUSH_ORDER[i];
        if key in pending {
          var _, code := UnitPushCommand(key);
          flight := Sending(key, code, asleep, 1, false);
          log := log + [WireSet(key, code)];
          return;
        }
        i := i + 1;
      }
      if sent {
        flight := Homing;
        log := log + [Home];
      } else {
        flight := Free;
      }
    }

    /** Taking the lock. */
    method BeginPush(asleep: bool)
      modifies this
      ensures View() == Step(old(View()), StartPush(asleep))
    {
      if flight.Free? {
        AdvancePush(0, false, asleep);
      }
    }

    /** The code after one send, up to the discard. */
    method FinishSend(acked: bool)
      requires flight.Sending?
      modifies this`pending, this`log
      ensures View() == Finish(old(View()), acked)
    {
      log := log + [Finished(flight.key, flight.code, acked)];
      var _, current := UnitPushCommand(flight.key);
      if current == flight.code {
        pending := pending - {flight.key};
        log := log + [Cleared(flight.key)];
      }
    }

    method SendAcknowledged(asleep: bool)
      modifies this
      ensures View() == Step(old(View()), Echo(asleep))
    {
      if Awaiting(flight) {
        var next := Rank(flight.key) + 1;
        FinishSend(true);
        AdvancePush(next, true, asleep);
      }
    }

    /** An acknowledgement timeout inside _async_send_unit_command: resend the same payload, at
        once or after a rest, or give up after the last attempt. */
    method SendTimedOut(asleep: bool)
      modifies this
      ensures View() == Step(old(View()), Silence(asleep))
    {
      if Awaiting(flight) {
        if flight.attempt >= SendLimit(flight.asleep) {
          var next := Rank(flight.key) + 1;
          FinishSend(false);
          AdvancePush(next, true, asleep);
        } else if flight.asleep {
          flight := flight.(resting := true);
        } else {
          SendAgain();
        }
      }
    }

    method SendAgain()
      requires flight.Sending?
      modifies this`flight, this`log
      ensures View() == Resend(old(View()))
    {
      flight := flight.(attempt := flight.attempt + 1, resting := false);
      log := log + [WireSet(flight.key, flight.code)];
    }

    /** The delay before a resend to a sleeping machine is over. */
    method RestOver()
      modifies this
      ensures View() == Step(old(View()), Rested)
    {
      if flight.Sending? && flight.resting {
        SendAgain();
      }
    }

    method SendFailed()
      modifies this`flight
      ensures View() == Step(old(View()), Break)
    {
      flight := Free;
    }

    method HomeFinished()
      modifies this`flight
      ensures View() == Step(old(View()), HomeDone)
    {
      if flight.Homing? {
        flight := Free;
      }
    }
  }
}
