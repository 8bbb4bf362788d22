/** The status heartbeat of ble/client.py: what the latches for scale calibration and brewing make
    of the machine's status codes, one of which means either. */
module Heartbeat {
  import opened Basics

  datatype Label =
    | WaterShortage | NoBeans | AwaitingConfirm | RecipeLoaded | Starting | Brewing | Ready
    | CalibratingGrinder | Descaling | CalibratingScale

  datatype Page = Home | Grind | Pour | Scale | Settings

  function LabelOf(code: byte): Option<Label> {
    if code == 0x0C then Some(WaterShortage)
    else if code == 0x0F then Some(NoBeans)
    else if code == 0x1E then Some(AwaitingConfirm)
    else if code == 0x1F then Some(RecipeLoaded)
    else if code == 0x22 then Some(Starting)
    else if code in {0x10, 0x23, 0x3B, 0x45} then Some(Brewing)
    else if code == 0x24 then Some(Ready)
    else if code in {0x26, 0x27} then Some(CalibratingGrinder)
    else if code in {0x2F, 0x32} then Some(Descaling)
    else if code in {0x39, 0x3A} then Some(CalibratingScale)
    else None
  }

  function PageOf(code: byte): Option<Page> {
    if code in {0x01, 0x41} then Some(Home)
    else if code in {0x02, 0x06, 0x07} then Some(Grind)
    else if code in {0x03, 0x08, 0x09} then Some(Pour)
    else if code in {0x04, 0x05} then Some(Scale)
    else if code in {0x17, 0x18, 0x19} then Some(Settings)
    else None
  }

  const DONE := 0x25
  const AMBIGUOUS := 0x3B

  predicate Arming(code: byte) { code in {0x39, 0x3A, 0x3C, 0x3F} }

  predicate BrewCode(code: byte) { code in {0x1E, 0x1F, 0x22, 0x10, 0x23} }

  /** _ends_scale_calibration. */
  predicate EndsCalibration(code: byte) {
    if code == DONE then true
    else if Arming(code) || code == AMBIGUOUS then false
    else LabelOf(code).Some? || PageOf(code).Some?
  }

  /** _ends_brew_context. */
  predicate EndsBrew(code: byte) {
    if code == DONE || PageOf(code).Some? then true
    else LabelOf(code) in {Some(Ready), Some(Descaling), Some(CalibratingGrinder), Some(CalibratingScale)}
  }

  /** The cmd-tagged state; `Other` stands for all values but these. */
  datatype DeviceState = Idle | Grinding | BrewingState | Paused | Other

  datatype Status = Status(
    calibrating: bool, brewContext: bool, activity: Option<Label>, screen: Option<Page>, lastPage: Option<Page>,
    grinderRunning: bool, brewerRunning: bool, state: DeviceState)

  const FRESH := Status(false, false, None, None, None, false, false, Other)

  datatype Event =
    | Frame(raw: seq<byte>)
    // what cmd-tagged responses do to the fields the heartbeat also touches
    | GrinderFlag(running: bool)
    | BrewerFlag(running: bool)
    | Tagged(state: DeviceState)

  /** The code a frame carries, if it is a status frame. */
  function CodeOf(raw: seq<byte>): Option<byte> {
    if |raw| <= 12 || raw[3] != 0x57 then None else Some(raw[10])
  }

  function LabelFor(s: Status, code: byte): Option<Label> {
    if s.calibrating then Some(CalibratingScale)
    else if code == AMBIGUOUS && !s.brewContext && !s.brewerRunning && !s.grinderRunning then None
    else LabelOf(code)
  }

  function OnCode(s: Status, code: byte): Status {
    var calibrating := if Arming(code) then true else s.calibrating && !EndsCalibration(code);
    var brewContext := if calibrating then false
                       else if BrewCode(code) then true
                       else s.brewContext && !EndsBrew(code);
    var t := s.(calibrating := calibrating, brewContext := brewContext);
    var page := PageOf(code);
    var shown := t.(activity := LabelFor(t, code), screen := page);
    if page.None? then shown
    else shown.(lastPage := page, grinderRunning := false, brewerRunning := false,
                state := if s.state in {Grinding, BrewingState, Paused} then Idle else s.state)
  }

  function Step(s: Status, e: Event): Status {
    match e
    case Frame(raw) => if CodeOf(raw).Some? then OnCode(s, CodeOf(raw).value) else s
    case GrinderFlag(running) => s.(grinderRunning := running)
    case BrewerFlag(running) => s.(brewerRunning := running)
    case Tagged(state) => s.(state := state)
  }

  function Run(events: seq<Event>): Status {
    if events == [] then FRESH else Step(Run(events[..|events| - 1]), events[|events| - 1])
  }

  // ------------------------------------------------------------------
  // The program
  // ------------------------------------------------------------------

  class Client {
    var scaleCalibrating: bool
    var brewContext: bool
    var rawStateLabel: Option<Label>
    var screen: Option<Page>
    var lastPage: Option<Page>
    var grinderRunning: bool
    var brewerRunning: bool
    var state: DeviceState

    function View(): Status
      reads this
    {
      Status(scaleCalibrating, brewContext, rawStateLabel, screen, lastPage, grinderRunning, brewerRunning, state)
    }

    /** A fresh connection. */
    constructor ()
      ensures View() == FRESH
    {
      scaleCalibrating, brewContext, rawStateLabel, screen, lastPage := false, false, None, None, None;
      grinderRunning, brewerRunning, state := false, false, Other;
    }

    /** _scan_for_status_frame. */
    method ScanForStatusFrame(raw: seq<byte>)
      modifies this
      ensures View() == Step(old(View()), Frame(raw))
    {
      if |raw| <= 12 || raw[3] != 0x57 {
        return;
      }
      var payload := raw[10..|raw| - 2];
      assert payload != [];
      var code := payload[0];
      if Arming(code) {
        scaleCalibrating := true;
      } else if scaleCalibrating && EndsCalibration(code) {
        scaleCalibrating := false;
      }
      UpdateBrewContext(code);
      var activity := StateLabelFor(code);
      rawStateLabel := activity;
      screen := PageOf(code);
      if screen.Some? {
        lastPage := screen;
        grinderRunning := false;
        brewerRunning := false;
        if state in {Grinding, BrewingState, Paused} {
          state := Idle;
        }
      }
    }

    /** _update_brew_context. */
    method UpdateBrewContext(code: byte)
      modifies this`brewContext
      ensures brewContext == if scaleCalibrating then false else BrewCode(code) || (old(brewContext) && !EndsBrew(code))
    {
      if scaleCalibrating {
        brewContext := false;
      } else if BrewCode(code) {
        brewContext := true;
      } else if EndsBrew(code) {
        brewContext := false;
      }
    }

    /** _state_label_for. */
    method StateLabelFor(code: byte) returns (activity: Option<Label>)
      ensures activity == LabelFor(View(), code)
    {
      if scaleCalibrating {
        return Some(CalibratingScale);
      }
      if code == AMBIGUOUS && !brewContext && !brewerRunning && !grinderRunning {
        return None;
      }
      return LabelOf(code);
    }
  }

  // ------------------------------------------------------------------
  // What the latches mean
  // ------------------------------------------------------------------

  /** The status codes of a history, in order. */
  function Codes(events: seq<Event>): seq<byte> {
    if events == [] then []
    else
      var front, last := Codes(events[..|events| - 1]), events[|events| - 1];
      if last.Frame? && CodeOf(last.raw).Some? then front + [CodeOf(last.raw).value] else front
  }

  /** A calibration run is on: an arming code with no ending code after it. */
  predicate CalibrationOn(codes: seq<byte>) {
    exists i :: 0 <= i < |codes| && Arming(codes[i]) && NoneAfter(codes, i, EndsCalibration)
  }

  /** A brew is on: a brew code with no ending or arming code after it. */
  predicate BrewOn(codes: seq<byte>) {
    exists i :: 0 <= i < |codes| && BrewCode(codes[i]) && NoneAfter(codes, i, EndsBrewOrArms)
  }

  predicate EndsBrewOrArms(code: byte) { EndsBrew(code) || Arming(code) }

  predicate NoneAfter(codes: seq<byte>, i: int, p: byte -> bool)
    requires 0 <= i < |codes|
  {
    forall j :: i < j < |codes| ==> !p(codes[j])
  }

  lemma CalibrationGrows(codes: seq<byte>, c: byte)
    ensures CalibrationOn(codes + [c]) <==> Arming(c) || (CalibrationOn(codes) && !EndsCalibration(c))
  {
    var after := codes + [c];
    if Arming(c) {
      assert NoneAfter(after, |codes|, EndsCalibration);
    } else if CalibrationOn(codes) && !EndsCalibration(c) {
      var i :| 0 <= i < |codes| && Arming(codes[i]) && NoneAfter(codes, i, EndsCalibration);
      assert Arming(after[i]) && NoneAfter(after, i, EndsCalibration);
    } else if CalibrationOn(after) {
      var i :| 0 <= i < |after| && Arming(after[i]) && NoneAfter(after, i, EndsCalibration);
      assert after[|codes|] == c;
      assert i < |codes| && Arming(codes[i]);
      assert forall j :: i < j < |codes| ==> codes[j] == after[j];
      assert NoneAfter(codes, i, EndsCalibration);
    }
  }

  lemma BrewGrows(codes: seq<byte>, c: byte)
    ensures BrewOn(codes + [c]) <==> BrewCode(c) || (BrewOn(codes) && !EndsBrewOrArms(c))
  {
    var after := codes + [c];
    if BrewCode(c) {
      assert NoneAfter(after, |codes|, EndsBrewOrArms);
    } else if BrewOn(codes) && !EndsBrewOrArms(c) {
      var i :| 0 <= i < |codes| && BrewCode(codes[i]) && NoneAfter(codes, i, EndsBrewOrArms);
      assert BrewCode(after[i]) && NoneAfter(after, i, EndsBrewOrArms);
    } else if BrewOn(after) {
      var i :| 0 <= i < |after| && BrewCode(after[i]) && NoneAfter(after, i, EndsBrewOrArms);
      assert after[|codes|] == c;
      assert i < |codes| && BrewCode(codes[i]);
      assert forall j :: i < j < |codes| ==> codes[j] == after[j];
      assert NoneAfter(codes, i, EndsBrewOrArms);
    }
  }

  /** For every history from a fresh connection: the calibration latch is on exactly while a
      calibration run is, the brew context exactly while a brew is, and never both. */
  lemma {:induction false} LatchesTellTheHistory(events: seq<Event>)
    ensures Run(events).calibrating <==> CalibrationOn(Codes(events))
    ensures Run(events).brewContext <==> BrewOn(Codes(events))
    ensures !(Run(events).calibrating && Run(events).brewContext)
  {
    if events != [] {
      var front, last := events[..|events| - 1], events[|events| - 1];
      LatchesTellTheHistory(front);
      if last.Frame? && CodeOf(last.raw).Some? {
        var c := CodeOf(last.raw).value;
        CalibrationGrows(Codes(front), c);
        BrewGrows(Codes(front), c);
        CodesApart(c);
      }
    }
  }

  /** The code sets that the latches tell apart. */
  lemma CodesApart(code: byte)
    ensures LabelOf(code).None? || PageOf(code).None?
    ensures Arming(code) ==> PageOf(code).None? && !EndsCalibration(code)
    ensures BrewCode(code) ==> EndsCalibration(code) && !EndsBrew(code) && !Arming(code)
    ensures EndsBrew(code) && !Arming(code) ==> EndsCalibration(code)
    ensures PageOf(code).Some? ==> EndsCalibration(code) && EndsBrew(code)
  {
  }

  lemma RunFrame(events: seq<Event>, raw: seq<byte>)
    requires CodeOf(raw).Some?
    ensures Run(events + [Frame(raw)]) == OnCode(Run(events), CodeOf(raw).value)
  {
    Grow(events, Frame(raw));
  }

  lemma AmbiguousStep(s: Status)
    requires !s.grinderRunning && !s.brewerRunning && !(s.calibrating && s.brewContext)
    ensures OnCode(s, AMBIGUOUS).activity ==
            if s.calibrating then Some(CalibratingScale) else if s.brewContext then Some(Brewing) else None
  {
  }

  /** With the run flags clear, the ambiguous code reads as calibrating while a calibration run is
      on, as brewing while a brew is on, and as nothing otherwise. */
  lemma AmbiguousCodeReads(events: seq<Event>, raw: seq<byte>)
    requires CodeOf(raw) == Some(AMBIGUOUS)
    requires !Run(events).grinderRunning && !Run(events).brewerRunning
    ensures Run(events + [Frame(raw)]).activity ==
            if CalibrationOn(Codes(events)) then Some(CalibratingScale)
            else if BrewOn(Codes(events)) then Some(Brewing)
            else None
  {
    RunFrame(events, raw);
    LatchesTellTheHistory(events);
    AmbiguousStep(Run(events));
  }

  // ------------------------------------------------------------------
  // Code by code
  // ------------------------------------------------------------------

  /** The activity codes of the protocol. */
  const LABELS: set<(int, Label)> := {
    (0x0C, WaterShortage), (0x0F, NoBeans), (0x10, Brewing), (0x1E, AwaitingConfirm), (0x1F, RecipeLoaded),
    (0x22, Starting), (0x23, Brewing), (0x24, Ready), (0x26, CalibratingGrinder), (0x27, CalibratingGrinder),
    (0x2F, Descaling), (0x32, Descaling), (0x39, CalibratingScale), (0x3A, CalibratingScale), (0x3B, Brewing),
    (0x45, Brewing)}

  /** The page codes of the protocol. */
  const PAGES: set<(int, Page)> := {
    (0x01, Home), (0x41, Home), (0x02, Grind), (0x06, Grind), (0x07, Grind), (0x03, Pour), (0x08, Pour), (0x09, Pour),
    (0x04, Scale), (0x05, Scale), (0x17, Settings), (0x18, Settings), (0x19, Settings)}

  lemma LabelTable(code: byte, l: Label)
    ensures LabelOf(code) == Some(l) <==> (code, l) in LABELS
  {
  }

  lemma PageTable(code: byte, p: Page)
    ensures PageOf(code) == Some(p) <==> (code, p) in PAGES
  {
  }

  /** A frame of more than 12 bytes with 0x57 at its fourth byte is a status frame, and its eleventh
      byte the code. */
  lemma StatusFrames(raw: seq<byte>, code: byte)
    ensures CodeOf(raw) == Some(code) <==> |raw| > 12 && raw[3] == 0x57 && raw[10] == code
  {
  }

  /** A status frame shows exactly what its code says: the page of a page code, which is then the
      last page as well; and the activity of an activity code, but scale calibration while a
      calibration run is on, and nothing for 0x3B that no brew and no run flag explains. */
  lemma FrameShowsItsCode(events: seq<Event>, raw: seq<byte>, l: Label, p: Page)
    requires |raw| > 12 && raw[3] == 0x57
    ensures var s, t, code := Run(events), Run(events + [Frame(raw)]), raw[10];
            && (t.screen == Some(p) <==> (code, p) in PAGES)
            && (t.screen.Some? ==> t.lastPage == t.screen) && (t.screen.None? ==> t.lastPage == s.lastPage)
            && (t.screen.None? ==> t.grinderRunning == s.grinderRunning && t.brewerRunning == s.brewerRunning && t.state == s.state)
            && (if CalibrationOn(Codes(events + [Frame(raw)])) then t.activity == Some(CalibratingScale)
                else if code == 0x3B && !BrewOn(Codes(events)) && !s.brewerRunning && !s.grinderRunning then t.activity == None
                else (t.activity == Some(l) <==> (code, l) in LABELS))
  {
    var after := events + [Frame(raw)];
    assert after[..|after| - 1] == events;
    LatchesTellTheHistory(events);
    LatchesTellTheHistory(after);
    ShownByStep(Run(events), raw[10], l, p);
  }

  lemma ShownByStep(s: Status, code: byte, l: Label, p: Page)
    requires !(s.calibrating && s.brewContext)
    ensures var t := OnCode(s, code);
            && (t.screen == Some(p) <==> (code, p) in PAGES)
            && (t.screen.Some? ==> t.lastPage == t.screen) && (t.screen.None? ==> t.lastPage == s.lastPage)
            && (t.screen.None? ==> t.grinderRunning == s.grinderRunning && t.brewerRunning == s.brewerRunning && t.state == s.state)
            && (if t.calibrating then t.activity == Some(CalibratingScale)
                else if code == 0x3B && !s.brewContext && !s.brewerRunning && !s.grinderRunning then t.activity == None
                else (t.activity == Some(l) <==> (code, l) in LABELS))
  {
    LabelTable(code, l);
    PageTable(code, p);
    CodesApart(code);
  }

  /** Frames without a code change nothing, and the tagged responses only what they carry. */
  lemma OtherEventsCarryTheirOwn(events: seq<Event>, e: Event)
    requires !(e.Frame? && CodeOf(e.raw).Some?)
    ensures var s, t := Run(events), Run(events + [e]);
            match e
            case Frame(_) => t == s
            case GrinderFlag(running) => t == s.(grinderRunning := running)
            case BrewerFlag(running) => t == s.(brewerRunning := running)
            case Tagged(state) => t == s.(state := state)
  {
    Grow(events, e);
  }

  /** The codes that begin and end a calibration run and a brew. */
  lemma CodesThatBeginAndEnd(code: byte)
    ensures Arming(code) <==> code in {0x39, 0x3A, 0x3C, 0x3F}
    ensures BrewCode(code) <==> code in {0x10, 0x1E, 0x1F, 0x22, 0x23}
    ensures EndsCalibration(code) <==>
            code in {0x01, 0x02, 0x03, 0x04, 0x05, 0x06, 0x07, 0x08, 0x09, 0x0C, 0x0F, 0x10, 0x17, 0x18, 0x19, 0x1E, 0x1F,
                     0x22, 0x23, 0x24, 0x25, 0x26, 0x27, 0x2F, 0x32, 0x41, 0x45}
    ensures EndsBrew(code) <==>
            code in {0x01, 0x02, 0x03, 0x04, 0x05, 0x06, 0x07, 0x08, 0x09, 0x17, 0x18, 0x19, 0x24, 0x25, 0x26, 0x27, 0x2F, 0x32,
                     0x39, 0x3A, 0x41}
  {
  }

  /** A page code leaves no activity label, no run flag, no running or paused state and no latch. */
  lemma PageMeansNothingRuns(events: seq<Event>, raw: seq<byte>)
    requires CodeOf(raw).Some? && PageOf(CodeOf(raw).value).Some?
    ensures var s := Run(events + [Frame(raw)]);
            && s.activity == None && s.screen == s.lastPage == PageOf(CodeOf(raw).value)
            && !s.grinderRunning && !s.brewerRunning
            && s.state == (if Run(events).state in {Grinding, BrewingState, Paused} then Idle else Run(events).state)
            && !s.calibrating && !s.brewContext
  {
    var after := events + [Frame(raw)];
    assert after[..|after| - 1] == events;
    CodesApart(CodeOf(raw).value);
  }

  /** A status frame never gives both a label and a page. The source's comment says it always gives
      one; in fact it gives neither exactly for codes in no table and for an unexplained 0x3B. */
  lemma AtMostOneLabel(events: seq<Event>, raw: seq<byte>)
    requires CodeOf(raw).Some?
    ensures var s, t, code := Run(events), Run(events + [Frame(raw)]), CodeOf(raw).value;
            && (t.activity.None? || t.screen.None?)
            && (t.activity.None? && t.screen.None? <==>
                && PageOf(code).None? && !CalibrationOn(Codes(events + [Frame(raw)]))
                && (LabelOf(code).None?
                    || (code == AMBIGUOUS && !BrewOn(Codes(events)) && !s.brewerRunning && !s.grinderRunning)))
  {
    var after := events + [Frame(raw)];
    assert after[..|after| - 1] == events;
    LatchesTellTheHistory(events);
    LatchesTellTheHistory(after);
    CodesApart(CodeOf(raw).value);
  }

  /** A status frame with a code in neither table. */
  const UNMAPPED: seq<byte> := [0x58, 0, 0, 0x57, 0, 13, 0, 0, 0, 0xC1, 0x50, 0, 0]

  lemma UnmappedCodeGivesNeither()
    ensures CodeOf(UNMAPPED) == Some(0x50)
    ensures Run([Frame(UNMAPPED)]).activity.None? && Run([Frame(UNMAPPED)]).screen.None?
  {
    assert [Frame(UNMAPPED)][..0] == [];
    assert Run([]) == FRESH;
  }
}
