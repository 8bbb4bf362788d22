/** Easy Mode slots: async_write_easy_slot of coordinator/recipes.py and async_write_easy_slots of
    brewing.py. The machine never reports its slots; the coordinator keeps a record per letter of
    what was last asked for and rewrites all three slots at every write. A sleeping machine
    ignores what it is sent. */
module EasySlots {
  import opened Basics
  import Payload
  import opened RecipeStore

  const LETTERS: seq<char> := ['A', 'B', 'C']

  predicate IsLetter(c: char) { c in {'A', 'B', 'C'} }

  function Index(c: char): byte
    requires IsLetter(c)
  {
    if c == 'A' then 0 else if c == 'B' then 1 else 2
  }

  /** What was last written to a letter on request. */
  datatype Record = Record(uid: Uid, name: string)

  type Records = map<char, Record>

  /** Slot contents on the machine, by slot index. */
  type Machine = map<int, seq<byte>>

  /** Grinder in the low nibble, the scale always on. */
  function Flags(r: Payload.Recipe): byte {
    (if r.grindSize > 0 && r.beanWeight > 0.0 then 0x02 else 0x04) + 0x10
  }

  /** The bytes a slot keeps for a recipe: flags and the coffee payload. `None` if the recipe does
      not build or does not pack. */
  function Encoding(r: Payload.Recipe): Option<seq<byte>> {
    if !Payload.ValidRecipe(r) || Payload.CoffeePayload(r).None? then None
    else Some([Flags(r)] + Payload.CoffeePayload(r).value)
  }

  /** In literal bytes: the scale bit with 0x02 for a recipe that grinds and 0x04 for one that does
      not, and then the coffee payload; letters A, B and C are slots 0, 1 and 2. */
  lemma SlotBytes(r: Payload.Recipe)
    ensures Encoding(r).Some? <==> Payload.ValidRecipe(r) && Payload.CoffeePayload(r).Some?
    ensures Encoding(r).Some? ==>
              && Encoding(r).value[0] == (if r.grindSize > 0 && r.beanWeight > 0.0 then 0x12 else 0x14)
              && Encoding(r).value[1..] == Payload.CoffeePayload(r).value
    ensures Index('A') == 0 && Index('B') == 1 && Index('C') == 2
  {
  }

  /** The slot holds these bytes. */
  predicate Holds(machine: Machine, c: char, bytes: Option<seq<byte>>)
    requires IsLetter(c)
  {
    bytes.Some? && Index(c) in machine && machine[Index(c)] == bytes.value
  }

  predicate IsTea(r: Recipe) { r.brew.cupType == Payload.TEA_CUP }

  // ------------------------------------------------------------------
  // Filling the three letters
  // ------------------------------------------------------------------

  /** The recipe each letter is written with: what the record of another letter resolves to, and
      `None`, for the recipe asked for, wherever there is nothing to resolve. */
  predicate Fills(recipes: View, records: Records, parse: string -> Identifier, letter: char, choice: map<char, Option<string>>) {
    choice.Keys == {'A', 'B', 'C'} && forall c :: c in choice ==> Chosen(recipes, records, parse, letter, c, choice[c])
  }

  predicate Chosen(recipes: View, records: Records, parse: string -> Identifier, letter: char, c: char, found: Option<string>) {
    if c == letter || c !in records || records[c].uid == "" then found.None?
    else Finds(recipes, parse(records[c].uid), found)
  }

  function BrewFor(recipes: View, target: Recipe, found: Option<string>): Payload.Recipe {
    if found.Some? && found.value in recipes then recipes[found.value].brew else target.brew
  }

  function Blobs(recipes: View, target: Recipe, choice: map<char, Option<string>>): map<char, Option<seq<byte>>> {
    map c | c in choice :: Encoding(BrewFor(recipes, target, choice[c]))
  }

  ghost predicate Parses(parse: string -> Identifier) {
    forall s :: parse(s).text == s
  }

  /** Recipes with identities that records can name. */
  ghost predicate Sound(recipes: View) {
    DistinctUids(recipes) && forall n :: n in recipes ==> recipes[n].uid != ""
  }

  /** Letter c is recorded with the visible recipe n. */
  predicate Recorded(recipes: View, records: Records, c: char, n: string) {
    c in records && IsLetter(c) && n in recipes && records[c].uid == recipes[n].uid
  }

  /** Every recorded letter whose uid is a visible recipe's holds that recipe as it is now. */
  ghost predicate Agrees(machine: Machine, recipes: View, records: Records) {
    forall c, n :: Recorded(recipes, records, c, n) ==> Holds(machine, c, Encoding(recipes[n].brew))
  }

  function Asking(records: Records, letter: char, target: Recipe): Records {
    records[letter := Record(target.uid, target.name)]
  }

  /** The uid of a visible recipe resolves to it and nothing else. */
  lemma Resolves(recipes: View, id: Identifier, n: string, found: Option<string>)
    requires DistinctUids(recipes) && n in recipes && recipes[n].uid == id.text != "" && Finds(recipes, id, found)
    ensures found == Some(n)
  {
    assert !Nowhere(recipes, r => HasUid(r, id)) by {
      assert HasUid(recipes[n], id);
    }
  }

  /** A recorded letter is filled with the recipe its record names. */
  lemma FilledWithRecorded(recipes: View, records: Records, parse: string -> Identifier, letter: char, target: Recipe,
                           choice: map<char, Option<string>>, c: char, n: string)
    requires Sound(recipes) && Parses(parse) && Fills(recipes, records, parse, letter, choice)
    requires target.name in recipes && recipes[target.name] == target
    requires Recorded(recipes, Asking(records, letter, target), c, n)
    ensures BrewFor(recipes, target, choice[c]) == recipes[n].brew
  {
    assert c in choice && Chosen(recipes, records, parse, letter, c, choice[c]);
    if c != letter {
      Resolves(recipes, parse(records[c].uid), n, choice[c]);
    }
  }

  // ------------------------------------------------------------------
  // What a write leaves on the machine
  // ------------------------------------------------------------------

  predicate SameSlot(before: Machine, after: Machine, c: char)
    requires IsLetter(c)
  {
    (Index(c) in before <==> Index(c) in after) && (Index(c) in before ==> before[Index(c)] == after[Index(c)])
  }

  /** The letters the machine was awake for hold their new bytes; the others are as they were. */
  predicate Delivered(before: Machine, after: Machine, blobs: map<char, Option<seq<byte>>>, received: set<char>) {
    && blobs.Keys == {'A', 'B', 'C'} && received <= {'A', 'B', 'C'}
    && forall c :: c in blobs ==> if c in received then Holds(after, c, blobs[c]) else SameSlot(before, after, c)
  }

  /** After a write that found everything as it still is, the machine agrees with the records
      exactly if every recorded letter was received awake, or held the right bytes already. */
  lemma WriteAgreesIff(recipes: View, records: Records, parse: string -> Identifier, letter: char, target: Recipe,
                       choice: map<char, Option<string>>, before: Machine, after: Machine, received: set<char>)
    requires Sound(recipes) && Parses(parse) && Fills(recipes, records, parse, letter, choice)
    requires target.name in recipes && recipes[target.name] == target
    requires Delivered(before, after, Blobs(recipes, target, choice), received)
    ensures Agrees(after, recipes, Asking(records, letter, target)) <==>
            forall c, n :: Recorded(recipes, Asking(records, letter, target), c, n) ==>
              c in received || Holds(before, c, Encoding(recipes[n].brew))
  {
    forall c, n | Recorded(recipes, Asking(records, letter, target), c, n)
      ensures Holds(after, c, Encoding(recipes[n].brew)) <==> c in received || Holds(before, c, Encoding(recipes[n].brew))
    {
      FilledWithRecorded(recipes, records, parse, letter, target, choice, c, n);
      assert Blobs(recipes, target, choice)[c] == Encoding(recipes[n].brew);
    }
  }

  /** In particular a write that the machine was awake for agrees. */
  lemma AwakeWriteAgrees(recipes: View, records: Records, parse: string -> Identifier, letter: char, target: Recipe,
                         choice: map<char, Option<string>>, before: Machine, after: Machine)
    requires Sound(recipes) && Parses(parse) && Fills(recipes, records, parse, letter, choice)
    requires target.name in recipes && recipes[target.name] == target
    requires Delivered(before, after, Blobs(recipes, target, choice), {'A', 'B', 'C'})
    ensures Agrees(after, recipes, Asking(records, letter, target))
  {
    WriteAgreesIff(recipes, records, parse, letter, target, choice, before, after, {'A', 'B', 'C'});
  }

  // ------------------------------------------------------------------
  // Edits between writes
  // ------------------------------------------------------------------

  /** A change to a recipe keeps the agreement exactly if no letter is recorded with it, or its
      bytes stay the same: the machine is not told about edits. */
  lemma EditKeepsAgreementIff(machine: Machine, recipes: View, records: Records, n: string, r: Recipe)
    requires Agrees(machine, recipes, records) && DistinctUids(recipes) && n in recipes
    requires r.uid == recipes[n].uid && (r.name == n || r.name !in recipes)
    ensures Agrees(machine, (recipes - {n})[r.name := r], records) <==>
            || (forall c :: c in records && IsLetter(c) ==> records[c].uid != r.uid)
            || Encoding(r.brew) == Encoding(recipes[n].brew)
  {
    var after := (recipes - {n})[r.name := r];
    assert after[r.name] == r;
    forall m | m in after && m != r.name
      ensures m in recipes && after[m] == recipes[m]
    {
    }
    if c :| c in records && IsLetter(c) && records[c].uid == r.uid {
      assert Recorded(recipes, records, c, n) && Recorded(after, records, c, r.name);
    }
    forall c, m | Recorded(after, records, c, m) && m != r.name
      ensures Holds(machine, c, Encoding(after[m].brew))
    {
      assert Recorded(recipes, records, c, m);
    }
  }

  // ------------------------------------------------------------------
  // Tea
  // ------------------------------------------------------------------

  lemma FindsSomething(recipes: View, id: Identifier) returns (found: Option<string>)
    ensures Finds(recipes, id, found)
  {
    if id.text == "" || recipes == map[] {
      found := None;
    } else if n :| n in recipes && HasUid(recipes[n], id) {
      found := Some(n);
    } else if n :| n in recipes && HasTable(recipes[n], id) {
      found := Some(n);
    } else if n :| n in recipes && HasShare(recipes[n], id) {
      found := Some(n);
    } else {
      found := if id.text in recipes then Some(id.text) else None;
    }
  }

  lemma ChooseOne(recipes: View, records: Records, parse: string -> Identifier, letter: char, c: char) returns (found: Option<string>)
    ensures Chosen(recipes, records, parse, letter, c, found)
  {
    found := None;
    if c != letter && c in records && records[c].uid != "" {
      found := FindsSomething(recipes, parse(records[c].uid));
    }
  }

  /** Another letter's record may resolve to a tea recipe. */
  ghost predicate TeaRecorded(recipes: View, records: Records, parse: string -> Identifier, letter: char) {
    exists c, n :: TeaAt(recipes, records, parse, letter, c, n)
  }

  predicate TeaAt(recipes: View, records: Records, parse: string -> Identifier, letter: char, c: char, n: string) {
    && IsLetter(c) && c != letter && c in records && records[c].uid != ""
    && n in recipes && IsTea(recipes[n]) && Finds(recipes, parse(records[c].uid), Some(n))
  }

  /** Some letter is filled with a tea recipe, which goes out compiled as coffee. */
  ghost predicate TeaFilled(recipes: View, choice: map<char, Option<string>>) {
    exists c :: c in choice && choice[c].Some? && choice[c].value in recipes && IsTea(recipes[choice[c].value])
  }

  lemma FilledTeaIsRecorded(recipes: View, records: Records, parse: string -> Identifier, letter: char, choice: map<char, Option<string>>)
    requires Fills(recipes, records, parse, letter, choice) && TeaFilled(recipes, choice)
    ensures TeaRecorded(recipes, records, parse, letter)
  {
    var c :| c in choice && choice[c].Some? && choice[c].value in recipes && IsTea(recipes[choice[c].value]);
    assert Chosen(recipes, records, parse, letter, c, choice[c]);
    assert TeaAt(recipes, records, parse, letter, c, choice[c].value);
  }

  lemma RecordedTeaCanBeFilled(recipes: View, records: Records, parse: string -> Identifier, letter: char, c: char, n: string)
    returns (choice: map<char, Option<string>>)
    requires TeaAt(recipes, records, parse, letter, c, n)
    ensures Fills(recipes, records, parse, letter, choice) && choice[c] == Some(n) && TeaFilled(recipes, choice)
  {
    var a := ChooseOne(recipes, records, parse, letter, 'A');
    var b := ChooseOne(recipes, records, parse, letter, 'B');
    var d := ChooseOne(recipes, records, parse, letter, 'C');
    choice := map['A' := a, 'B' := b, 'C' := d][c := Some(n)];
    assert Chosen(recipes, records, parse, letter, c, Some(n));
  }

  /** Tea is refused for the recipe asked for, and only there: a write can put a tea recipe into a
      slot exactly if another letter's record resolves to one. */
  lemma TeaSlipsThroughIff(recipes: View, records: Records, parse: string -> Identifier, letter: char)
    ensures (exists choice :: Fills(recipes, records, parse, letter, choice) && TeaFilled(recipes, choice))
            <==> TeaRecorded(recipes, records, parse, letter)
  {
    if choice: map<char, Option<string>> :| Fills(recipes, records, parse, letter, choice) && TeaFilled(recipes, choice) {
      FilledTeaIsRecorded(recipes, records, parse, letter, choice);
    }
    if TeaRecorded(recipes, records, parse, letter) {
      var c, n :| TeaAt(recipes, records, parse, letter, c, n);
      var choice := RecordedTeaCanBeFilled(recipes, records, parse, letter, c, n);
    }
  }

  /** And it is certain to, whatever the fill, if the record names a visible tea recipe by uid. */
  lemma TeaSlipsThroughSurely(recipes: View, records: Records, parse: string -> Identifier, letter: char,
                              choice: map<char, Option<string>>, c: char, n: string)
    requires Sound(recipes) && Parses(parse) && Fills(recipes, records, parse, letter, choice)
    requires Recorded(recipes, records, c, n) && c != letter && IsTea(recipes[n])
    ensures choice[c] == Some(n) && TeaFilled(recipes, choice)
  {
    assert Chosen(recipes, records, parse, letter, c, choice[c]);
    Resolves(recipes, parse(records[c].uid), n, choice[c]);
  }

  // ------------------------------------------------------------------
  // Writes that overlap
  // ------------------------------------------------------------------

  /** A write that has looked up the recipe asked for and waits for the link, or one that has
      filled all letters and is sending: the next slot to send, and the letters the machine was
      awake for so far. */
  datatype Write =
    | Asked(letter: char, target: Recipe)
    | Sending(letter: char, target: Recipe, choice: map<char, Option<string>>, blobs: map<char, Option<seq<byte>>>,
              next: nat, received: set<char>)

  datatype Slots = Slots(recipes: View, records: Records, machine: Machine, writes: map<nat, Write>)

  datatype Event =
    | Ask(id: nat, letter: char, name: string)
    | Fill(id: nat, choice: map<char, Option<string>>)
    | Send(id: nat, awake: bool)   // one 11510
    | Restart(id: nat)             // the sleep retry sends the batch again
    | Commit(id: nat)              // the record is written
    | Abort(id: nat)
    | Change(recipes: View)        // any change of the recipe store

  predicate CanSend(w: Write) {
    w.Sending? && w.blobs.Keys == {'A', 'B', 'C'} && w.next < 3 && w.blobs[LETTERS[w.next]].Some?
  }

  ghost predicate Possible(s: Slots, parse: string -> Identifier, e: Event) {
    match e
    case Ask(id, letter, name) => id !in s.writes && IsLetter(letter) && name in s.recipes && !IsTea(s.recipes[name])
    case Fill(id, choice) => id in s.writes && s.writes[id].Asked? && Fills(s.recipes, s.records, parse, s.writes[id].letter, choice)
    case Send(id, _) => id in s.writes && CanSend(s.writes[id])
    case Restart(id) => id in s.writes && s.writes[id].Sending? && s.writes[id].next == 3
    case Commit(id) => id in s.writes && s.writes[id].Sending? && s.writes[id].next == 3
    case Abort(id) => id in s.writes
    case Change(recipes) => Sound(recipes)
  }

  function Sent(w: Write, awake: bool): Write
    requires CanSend(w)
  {
    w.(next := w.next + 1, received := if awake then w.received + {LETTERS[w.next]} else w.received)
  }

  ghost function Step(s: Slots, parse: string -> Identifier, e: Event): Slots
    requires Possible(s, parse, e)
  {
    match e
    case Ask(id, letter, name) => s.(writes := s.writes[id := Asked(letter, s.recipes[name])])
    case Fill(id, choice) =>
      var w := s.writes[id];
      s.(writes := s.writes[id := Sending(w.letter, w.target, choice, Blobs(s.recipes, w.target, choice), 0, {})])
    case Send(id, awake) =>
      var w := s.writes[id];
      s.(machine := if awake then s.machine[w.next := w.blobs[LETTERS[w.next]].value] else s.machine,
         writes := s.writes[id := Sent(w, awake)])
    case Restart(id) => s.(writes := s.writes[id := s.writes[id].(next := 0)])
    case Commit(id) =>
      s.(records := Asking(s.records, s.writes[id].letter, s.writes[id].target), writes := s.writes - {id})
    case Abort(id) => s.(writes := s.writes - {id})
    case Change(recipes) => s.(recipes := recipes)
  }

  ghost predicate Legal(s: Slots, parse: string -> Identifier, events: seq<Event>)
    decreases |events|
  {
    events != [] ==> Possible(s, parse, events[0]) && Legal(Step(s, parse, events[0]), parse, events[1..])
  }

  ghost function Run(s: Slots, parse: string -> Identifier, events: seq<Event>): Slots
    requires Legal(s, parse, events)
    decreases |events|
  {
    if events == [] then s else Run(Step(s, parse, events[0]), parse, events[1..])
  }

  /** The event does not disturb a write: no recipe changes, no other write sends or commits, and
      the write itself does not end. Other writes may begin and give up. */
  predicate Quiet(e: Event, id: nat) {
    match e
    case Change(_) => false
    case Commit(_) => false
    case Send(other, _) => other == id
    case Abort(other) => other != id
    case _ => true
  }

  predicate AllQuiet(events: seq<Event>, id: nat) {
    forall i :: 0 <= i < |events| ==> Quiet(events[i], id)
  }

  /** How far write `id` has got since `start`, where it was asked for and nothing else happened to
      recipes, records and machine. */
  ghost predicate OnCourse(start: Slots, s: Slots, parse: string -> Identifier, id: nat, letter: char, target: Recipe) {
    && s.recipes == start.recipes && s.records == start.records && id in s.writes
    && s.writes[id].letter == letter && s.writes[id].target == target
    && (s.writes[id].Asked? ==> s.machine == start.machine)
    && (s.writes[id].Sending? ==> Filled(start, s.machine, parse, s.writes[id]))
  }

  ghost predicate Filled(start: Slots, machine: Machine, parse: string -> Identifier, w: Write)
    requires w.Sending?
  {
    && Fills(start.recipes, start.records, parse, w.letter, w.choice)
    && w.blobs == Blobs(start.recipes, w.target, w.choice)
    && Delivered(start.machine, machine, w.blobs, w.received)
  }

  lemma SendDelivers(before: Machine, after: Machine, w: Write)
    requires CanSend(w) && Delivered(before, after, w.blobs, w.received)
    ensures Delivered(before, after[w.next := w.blobs[LETTERS[w.next]].value], w.blobs, w.received + {LETTERS[w.next]})
  {
    assert Index(LETTERS[w.next]) == w.next;
  }

  lemma StepOnCourse(start: Slots, s: Slots, parse: string -> Identifier, e: Event, id: nat, letter: char, target: Recipe)
    requires OnCourse(start, s, parse, id, letter, target) && Possible(s, parse, e) && Quiet(e, id)
    ensures OnCourse(start, Step(s, parse, e), parse, id, letter, target)
  {
    if e.Send? && e.id == id && e.awake {
      SendDelivers(start.machine, s.machine, s.writes[id]);
    }
  }

  lemma {:induction false} RunOnCourse(start: Slots, s: Slots, parse: string -> Identifier, events: seq<Event>, id: nat, letter: char, target: Recipe)
    requires OnCourse(start, s, parse, id, letter, target) && Legal(s, parse, events) && AllQuiet(events, id)
    ensures OnCourse(start, Run(s, parse, events), parse, id, letter, target)
    decreases |events|
  {
    if events != [] {
      StepOnCourse(start, s, parse, events[0], id, letter, target);
      RunOnCourse(start, Step(s, parse, events[0]), parse, events[1..], id, letter, target);
    }
  }

  /** A write that was just asked for, for a recipe as it is. */
  ghost predicate JustAsked(s: Slots, id: nat) {
    && id in s.writes && s.writes[id].Asked? && IsLetter(s.writes[id].letter)
    && var r := s.writes[id].target; r.name in s.recipes && s.recipes[r.name] == r
  }

  /** Among any other writes: one that is undisturbed from the moment it is asked for until it
      commits changes only its own letter's record, and the machine then agrees with all records
      exactly if every recorded letter was received awake or held the right bytes before. */
  lemma UndisturbedWriteAgreesIff(s: Slots, parse: string -> Identifier, id: nat, events: seq<Event>)
    requires Sound(s.recipes) && Parses(parse) && JustAsked(s, id)
    requires Legal(s, parse, events) && AllQuiet(events, id) && Possible(Run(s, parse, events), parse, Commit(id))
    ensures var letter, target := s.writes[id].letter, s.writes[id].target;
            var t := Run(s, parse, events);
            var after := Step(t, parse, Commit(id));
            && after.recipes == s.recipes && after.records == Asking(s.records, letter, target)
            && (Agrees(after.machine, after.recipes, after.records) <==>
                forall c, n :: Recorded(s.recipes, after.records, c, n) ==>
                  c in t.writes[id].received || Holds(s.machine, c, Encoding(s.recipes[n].brew)))
  {
    var letter, target := s.writes[id].letter, s.writes[id].target;
    RunOnCourse(s, s, parse, events, id, letter, target);
    var t := Run(s, parse, events);
    CourseAgrees(s, t, parse, id, letter, target);
  }

  lemma CourseAgrees(start: Slots, t: Slots, parse: string -> Identifier, id: nat, letter: char, target: Recipe)
    requires Sound(start.recipes) && Parses(parse) && target.name in start.recipes && start.recipes[target.name] == target
    requires OnCourse(start, t, parse, id, letter, target) && t.writes[id].Sending?
    ensures Agrees(t.machine, t.recipes, Asking(t.records, letter, target)) <==>
            forall c, n :: Recorded(start.recipes, Asking(start.records, letter, target), c, n) ==>
              c in t.writes[id].received || Holds(start.machine, c, Encoding(start.recipes[n].brew))
  {
    var w := t.writes[id];
    WriteAgreesIff(start.recipes, start.records, parse, letter, target, w.choice, start.machine, t.machine, w.received);
  }

  // ------------------------------------------------------------------
  // Runs that end in disagreement
  // ------------------------------------------------------------------

  ghost predicate Reaches(s: Slots, parse: string -> Identifier, events: seq<Event>, t: Slots) {
    Legal(s, parse, events) && Run(s, parse, events) == t
  }

  lemma {:induction false} ReachesAppend(s: Slots, parse: string -> Identifier, a: seq<Event>, t: Slots, b: seq<Event>, u: Slots)
    requires Reaches(s, parse, a, t) && Reaches(t, parse, b, u)
    ensures Reaches(s, parse, a + b, u)
    decreases |a|
  {
    if a == [] {
      assert a + b == b;
    } else {
      assert (a + b)[1..] == a[1..] + b;
      ReachesAppend(Step(s, parse, a[0]), parse, a[1..], t, b, u);
    }
  }

  lemma ReachesNext(s: Slots, parse: string -> Identifier, a: seq<Event>, t: Slots, e: Event)
    requires Reaches(s, parse, a, t) && Possible(t, parse, e)
    ensures Reaches(s, parse, a + [e], Step(t, parse, e))
  {
    assert [e][1..] == [];
    assert Legal(Step(t, parse, e), parse, []) && Run(Step(t, parse, e), parse, []) == Step(t, parse, e);
    assert Legal(t, parse, [e]);
    ReachesAppend(s, parse, a, t, [e], Step(t, parse, e));
  }

  function Batch(id: nat, awake: bool): seq<Event> { [Send(id, awake), Send(id, awake), Send(id, awake)] }

  function Stored(machine: Machine, blobs: map<char, Option<seq<byte>>>): Machine
    requires blobs.Keys == {'A', 'B', 'C'} && forall c :: c in blobs ==> blobs[c].Some?
  {
    machine[0 := blobs['A'].value][1 := blobs['B'].value][2 := blobs['C'].value]
  }

  predicate ReadyToSend(w: Write) {
    w.Sending? && w.next == 0 && w.blobs.Keys == {'A', 'B', 'C'} && forall c :: c in w.blobs ==> w.blobs[c].Some?
  }

  lemma BatchSends(s: Slots, parse: string -> Identifier, id: nat, awake: bool) returns (t: Slots)
    requires id in s.writes && ReadyToSend(s.writes[id])
    ensures Reaches(s, parse, Batch(id, awake), t)
    ensures t.recipes == s.recipes && t.records == s.records
    ensures t.machine == if awake then Stored(s.machine, s.writes[id].blobs) else s.machine
    ensures id in t.writes && t.writes[id].Sending? && t.writes == s.writes[id := s.writes[id].(next := 3, received := t.writes[id].received)]
  {
    var s1 := Step(s, parse, Send(id, awake));
    var s2 := Step(s1, parse, Send(id, awake));
    t := Step(s2, parse, Send(id, awake));
    assert Reaches(s, parse, [], s);
    ReachesNext(s, parse, [], s, Send(id, awake));
    ReachesNext(s, parse, [] + [Send(id, awake)], s1, Send(id, awake));
    ReachesNext(s, parse, [] + [Send(id, awake)] + [Send(id, awake)], s2, Send(id, awake));
    assert [] + [Send(id, awake)] + [Send(id, awake)] + [Send(id, awake)] == Batch(id, awake);
  }

  lemma CommitOne(s: Slots, parse: string -> Identifier, a: seq<Event>, u: Slots, id: nat) returns (t: Slots)
    requires Reaches(s, parse, a, u) && id in u.writes && u.writes[id].Sending? && u.writes[id].next == 3
    ensures Reaches(s, parse, a + [Commit(id)], t)
    ensures t == u.(records := Asking(u.records, u.writes[id].letter, u.writes[id].target), writes := u.writes - {id})
  {
    t := Step(u, parse, Commit(id));
    ReachesNext(s, parse, a, u, Commit(id));
  }

  lemma AskThenFill(s: Slots, parse: string -> Identifier, ask: Event, choice: map<char, Option<string>>) returns (t: Slots)
    requires ask.Ask? && Possible(s, parse, ask) && Fills(s.recipes, s.records, parse, ask.letter, choice)
    ensures Reaches(s, parse, [ask] + [Fill(ask.id, choice)], t)
    ensures t == s.(writes := s.writes[ask.id := Sending(ask.letter, s.recipes[ask.name], choice, Blobs(s.recipes, s.recipes[ask.name], choice), 0, {})])
  {
    var s1 := Step(s, parse, ask);
    assert Reaches(s, parse, [], s) && [] + [ask] == [ask];
    ReachesNext(s, parse, [], s, ask);
    t := Step(s1, parse, Fill(ask.id, choice));
    ReachesNext(s, parse, [ask], s1, Fill(ask.id, choice));
  }

  /** A whole write to an awake machine with nothing in between. */
  lemma WholeWrite(s: Slots, parse: string -> Identifier, ask: Event, choice: map<char, Option<string>>) returns (t: Slots)
    requires ask.Ask? && Possible(s, parse, ask) && Fills(s.recipes, s.records, parse, ask.letter, choice)
    requires forall c :: c in choice ==> Blobs(s.recipes, s.recipes[ask.name], choice)[c].Some?
    ensures Reaches(s, parse, [ask] + [Fill(ask.id, choice)] + Batch(ask.id, true) + [Commit(ask.id)], t)
    ensures t.recipes == s.recipes && t.records == Asking(s.records, ask.letter, s.recipes[ask.name]) && t.writes == s.writes
    ensures t.machine == Stored(s.machine, Blobs(s.recipes, s.recipes[ask.name], choice))
  {
    var s1 := AskThenFill(s, parse, ask, choice);
    var s2 := BatchSends(s1, parse, ask.id, true);
    ReachesAppend(s, parse, [ask] + [Fill(ask.id, choice)], s1, Batch(ask.id, true), s2);
    t := CommitOne(s, parse, [ask] + [Fill(ask.id, choice)] + Batch(ask.id, true), s2, ask.id);
    assert s2.writes - {ask.id} == s.writes;
  }

  // Two recipes without pours, told apart by their grind size.

  function Plain(name: string, uid: Uid, grind: int, cup: int): Recipe {
    Recipe(name, uid, None, None, Manual, Payload.Recipe(grind, 0, 0, cup, 0.0, []))
  }

  lemma PlainEncoding(r: Recipe, grind: int)
    requires 0 <= grind <= 150 && (r.brew == Payload.Recipe(grind, 0, 0, 0, 0.0, []) || r.brew == Payload.Recipe(grind, 0, 0, 4, 0.0, []))
    ensures Encoding(r.brew) == Some([0x14, 0, grind, 0])
  {
    var g := Payload.Low(r.brew.grindSize);
    assert Payload.Assemble([], g, 0).value == [0, g, 0];
    assert Payload.CoffeePayload(r.brew) == Payload.Assemble([], g, 0);
    assert [Flags(r.brew)] + [0, g, 0] == [0x14, 0, grind, 0];
  }

  const RECIPE_X := Plain("x", "u1", 1, 0)
  const RECIPE_Y := Plain("y", "u2", 2, 0)
  const EDITED_Y := Plain("y", "u2", 3, 0)
  const TEA_Y := Plain("y", "u2", 3, 4)
  const EDITED_X := Plain("x", "u1", 3, 0)
  const BEFORE := Slots(map["x" := RECIPE_X, "y" := RECIPE_Y], map[], map[], map[])
  const MIRROR: map<char, Option<string>> := map['A' := None, 'B' := None, 'C' := None]

  /** The machine holds grind byte `held` for a letter recorded with a recipe whose byte is `meant`. */
  lemma HoldsTheWrong(machine: Machine, recipes: View, records: Records, c: char, n: string, held: byte, meant: int)
    requires Recorded(recipes, records, c, n) && 0 <= meant <= 150 && held != meant
    requires recipes[n].brew == Payload.Recipe(meant, 0, 0, 0, 0.0, []) || recipes[n].brew == Payload.Recipe(meant, 0, 0, 4, 0.0, [])
    requires Index(c) in machine ==> machine[Index(c)] == [0x14, 0, held, 0]
    ensures !Agrees(machine, recipes, records)
  {
    PlainEncoding(recipes[n], meant);
    assert !Holds(machine, c, Encoding(recipes[n].brew)) by {
      assert Index(c) in machine ==> machine[Index(c)][2] == held;
    }
  }

  lemma YWritten(parse: string -> Identifier) returns (t: Slots)
    ensures Reaches(BEFORE, parse, [Ask(1, 'B', "y")] + [Fill(1, MIRROR)] + Batch(1, true) + [Commit(1)], t)
    ensures t.recipes == BEFORE.recipes && t.records == map['B' := Record("u2", "y")] && t.writes == map[]
    ensures Index('B') in t.machine && t.machine[Index('B')] == [0x14, 0, 2, 0]
  {
    PlainEncoding(RECIPE_Y, 2);
    t := WholeWrite(BEFORE, parse, Ask(1, 'B', "y"), MIRROR);
    assert Blobs(BEFORE.recipes, RECIPE_Y, MIRROR)['B'] == Some([0x14, 0, 2, 0]);
  }

  /** Write y to B, then edit it: the slot is stale. */
  lemma EditedRecipeDisagrees(parse: string -> Identifier) returns (t: Slots)
    ensures Reaches(BEFORE, parse, [Ask(1, 'B', "y")] + [Fill(1, MIRROR)] + Batch(1, true) + [Commit(1)]
                                   + [Change(map["x" := RECIPE_X, "y" := EDITED_Y])], t)
    ensures !Agrees(t.machine, t.recipes, t.records)
  {
    var s := YWritten(parse);
    var e := Change(map["x" := RECIPE_X, "y" := EDITED_Y]);
    t := Step(s, parse, e);
    ReachesNext(BEFORE, parse, [Ask(1, 'B', "y")] + [Fill(1, MIRROR)] + Batch(1, true) + [Commit(1)], s, e);
    HoldsTheWrong(t.machine, t.recipes, t.records, 'B', "y", 2, 3);
  }

  /** Write y to B, edit it to tea, write x to A: slot B now holds a tea recipe compiled as coffee. */
  lemma TeaReachesASlot(parse: string -> Identifier) returns (t: Slots)
    requires Parses(parse)
    ensures var mixed: map<char, Option<string>> := map['A' := None, 'B' := Some("y"), 'C' := None];
            Reaches(BEFORE, parse, [Ask(1, 'B', "y")] + [Fill(1, MIRROR)] + Batch(1, true) + [Commit(1)]
                                   + [Change(map["x" := RECIPE_X, "y" := TEA_Y])]
                                   + ([Ask(2, 'A', "x")] + [Fill(2, mixed)] + Batch(2, true) + [Commit(2)]), t)
    ensures "y" in t.recipes && IsTea(t.recipes["y"]) && Holds(t.machine, 'B', Encoding(t.recipes["y"].brew))
  {
    var s := YWritten(parse);
    var e := Change(map["x" := RECIPE_X, "y" := TEA_Y]);
    var u := Step(s, parse, e);
    ReachesNext(BEFORE, parse, [Ask(1, 'B', "y")] + [Fill(1, MIRROR)] + Batch(1, true) + [Commit(1)], s, e);
    var mixed: map<char, Option<string>> := map['A' := None, 'B' := Some("y"), 'C' := None];
    PlainEncoding(RECIPE_X, 1);
    PlainEncoding(TEA_Y, 3);
    FillsMixed(u, parse, mixed);
    t := WholeWrite(u, parse, Ask(2, 'A', "x"), mixed);
    ReachesAppend(BEFORE, parse,
                  [Ask(1, 'B', "y")] + [Fill(1, MIRROR)] + Batch(1, true) + [Commit(1)] + [e], u,
                  [Ask(2, 'A', "x")] + [Fill(2, mixed)] + Batch(2, true) + [Commit(2)], t);
    assert Blobs(u.recipes, RECIPE_X, mixed)['B'] == Encoding(TEA_Y.brew);
  }

  lemma FillsMixed(u: Slots, parse: string -> Identifier, mixed: map<char, Option<string>>)
    requires Parses(parse) && u.recipes == map["x" := RECIPE_X, "y" := TEA_Y] && u.records == map['B' := Record("u2", "y")]
    requires mixed == map['A' := None, 'B' := Some("y"), 'C' := None]
    ensures Fills(u.recipes, u.records, parse, 'A', mixed)
  {
    var id := parse("u2");
    assert HasUid(u.recipes["y"], id);
    assert Finds(u.recipes, id, Some("y"));
  }

  /** With nothing recorded yet, every letter mirrors the recipe asked for. */
  lemma FillMirrors(s: Slots, parse: string -> Identifier, id: nat, bytes: seq<byte>) returns (t: Slots)
    requires id in s.writes && s.writes[id].Asked? && s.records == map[] && Encoding(s.writes[id].target.brew) == Some(bytes)
    ensures Possible(s, parse, Fill(id, MIRROR)) && t == Step(s, parse, Fill(id, MIRROR))
    ensures t == s.(writes := s.writes[id := t.writes[id]]) && ReadyToSend(t.writes[id])
    ensures t.writes[id].letter == s.writes[id].letter && t.writes[id].target == s.writes[id].target
    ensures forall c :: c in t.writes[id].blobs ==> t.writes[id].blobs[c] == Some(bytes)
  {
    t := Step(s, parse, Fill(id, MIRROR));
  }

  lemma AskAndFill(s: Slots, parse: string -> Identifier, ask: Event, bytes: seq<byte>) returns (t: Slots)
    requires ask.Ask? && Possible(s, parse, ask) && s.records == map[] && Encoding(s.recipes[ask.name].brew) == Some(bytes)
    ensures Reaches(s, parse, [ask] + [Fill(ask.id, MIRROR)], t)
    ensures ask.id in t.writes && t == s.(writes := s.writes[ask.id := t.writes[ask.id]]) && ReadyToSend(t.writes[ask.id])
    ensures t.writes[ask.id].letter == ask.letter && t.writes[ask.id].target == s.recipes[ask.name]
    ensures forall c :: c in t.writes[ask.id].blobs ==> t.writes[ask.id].blobs[c] == Some(bytes)
  {
    var s1 := Step(s, parse, ask);
    assert Reaches(s, parse, [], s) && [] + [ask] == [ask];
    ReachesNext(s, parse, [], s, ask);
    t := FillMirrors(s1, parse, ask.id, bytes);
    ReachesNext(s, parse, [ask], s1, Fill(ask.id, MIRROR));
  }

  lemma AnotherBatch(s: Slots, parse: string -> Identifier, a: seq<Event>, u: Slots, id: nat) returns (t: Slots)
    requires Reaches(s, parse, a, u) && id in u.writes && u.writes[id].Sending? && u.writes[id].next == 3
    requires ReadyToSend(u.writes[id].(next := 0))
    ensures Reaches(s, parse, a + [Restart(id)] + Batch(id, false), t)
    ensures t.recipes == u.recipes && t.records == u.records && t.machine == u.machine
    ensures id in t.writes && t.writes[id].Sending? && t.writes[id] == u.writes[id].(received := t.writes[id].received)
  {
    var u1 := Step(u, parse, Restart(id));
    ReachesNext(s, parse, a, u, Restart(id));
    t := BatchSends(u1, parse, id, false);
    ReachesAppend(s, parse, a + [Restart(id)], u1, Batch(id, false), t);
  }

  const ASLEEP_WRITE: seq<Event> :=
    [Ask(1, 'A', "x")] + [Fill(1, MIRROR)] + Batch(1, false) + [Restart(1)] + Batch(1, false) + [Restart(1)] + Batch(1, false)
    + [Commit(1)]

  /** Three attempts that the machine sleeps through: the retry gives up quietly, the record is
      written, and the machine has nothing. */
  lemma AsleepWriteDisagrees(parse: string -> Identifier) returns (t: Slots)
    ensures Reaches(BEFORE, parse, ASLEEP_WRITE, t)
    ensures t.records == map['A' := Record("u1", "x")] && t.machine == map[] && !Agrees(t.machine, t.recipes, t.records)
  {
    PlainEncoding(RECIPE_X, 1);
    var a0 := [Ask(1, 'A', "x")] + [Fill(1, MIRROR)];
    var s0 := AskAndFill(BEFORE, parse, Ask(1, 'A', "x"), [0x14, 0, 1, 0]);
    var s1 := BatchSends(s0, parse, 1, false);
    ReachesAppend(BEFORE, parse, a0, s0, Batch(1, false), s1);
    var a1 := a0 + Batch(1, false);
    var s2 := AnotherBatch(BEFORE, parse, a1, s1, 1);
    var a2 := a1 + [Restart(1)] + Batch(1, false);
    var s3 := AnotherBatch(BEFORE, parse, a2, s2, 1);
    var a3 := a2 + [Restart(1)] + Batch(1, false);
    t := CommitOne(BEFORE, parse, a3, s3, 1);
    HoldsTheWrong(t.machine, t.recipes, t.records, 'A', "x", 0, 1);
  }

  const STALE_TARGET: seq<Event> :=
    [Ask(1, 'A', "x")] + [Change(map["x" := EDITED_X, "y" := RECIPE_Y])] + [Fill(1, MIRROR)] + Batch(1, true) + [Commit(1)]

  lemma AskedThenEdited(parse: string -> Identifier) returns (t: Slots)
    ensures Reaches(BEFORE, parse, [Ask(1, 'A', "x")] + [Change(map["x" := EDITED_X, "y" := RECIPE_Y])], t)
    ensures t == BEFORE.(recipes := map["x" := EDITED_X, "y" := RECIPE_Y], writes := map[1 := Asked('A', RECIPE_X)])
  {
    var ask, edit := Ask(1, 'A', "x"), Change(map["x" := EDITED_X, "y" := RECIPE_Y]);
    var s := Step(BEFORE, parse, ask);
    assert Reaches(BEFORE, parse, [], BEFORE) && [] + [ask] == [ask];
    ReachesNext(BEFORE, parse, [], BEFORE, ask);
    t := Step(s, parse, edit);
    ReachesNext(BEFORE, parse, [ask], s, edit);
  }

  /** x is asked for, edited while the link comes up, and written as it was. */
  lemma StaleTargetDisagrees(parse: string -> Identifier) returns (t: Slots)
    ensures Reaches(BEFORE, parse, STALE_TARGET, t)
    ensures !Agrees(t.machine, t.recipes, t.records)
  {
    PlainEncoding(RECIPE_X, 1);
    var a := [Ask(1, 'A', "x")] + [Change(map["x" := EDITED_X, "y" := RECIPE_Y])];
    var s1 := AskedThenEdited(parse);
    var s2 := FillMirrors(s1, parse, 1, [0x14, 0, 1, 0]);
    ReachesNext(BEFORE, parse, a, s1, Fill(1, MIRROR));
    var s3 := BatchSends(s2, parse, 1, true);
    ReachesAppend(BEFORE, parse, a + [Fill(1, MIRROR)], s2, Batch(1, true), s3);
    t := CommitOne(BEFORE, parse, a + [Fill(1, MIRROR)] + Batch(1, true), s3, 1);
    HoldsTheWrong(t.machine, t.recipes, t.records, 'A', "x", 1, 3);
  }

  const OVERLAP: seq<Event> :=
    ([Ask(1, 'A', "x")] + [Fill(1, MIRROR)]) + ([Ask(2, 'B', "y")] + [Fill(2, MIRROR)]) + Batch(1, true) + Batch(2, true)
    + [Commit(1)] + [Commit(2)]

  lemma BothFilled(parse: string -> Identifier) returns (t: Slots)
    ensures Reaches(BEFORE, parse, ([Ask(1, 'A', "x")] + [Fill(1, MIRROR)]) + ([Ask(2, 'B', "y")] + [Fill(2, MIRROR)]), t)
    ensures t.recipes == BEFORE.recipes && t.records == map[]
    ensures 1 in t.writes && ReadyToSend(t.writes[1]) && t.writes[1].letter == 'A' && t.writes[1].target == RECIPE_X
    ensures 2 in t.writes && ReadyToSend(t.writes[2]) && t.writes[2].letter == 'B'
    ensures t.writes[2].blobs['A'] == Some([0x14, 0, 2, 0])
  {
    PlainEncoding(RECIPE_X, 1);
    PlainEncoding(RECIPE_Y, 2);
    var s := AskAndFill(BEFORE, parse, Ask(1, 'A', "x"), [0x14, 0, 1, 0]);
    t := AskAndFill(s, parse, Ask(2, 'B', "y"), [0x14, 0, 2, 0]);
    ReachesAppend(BEFORE, parse, [Ask(1, 'A', "x")] + [Fill(1, MIRROR)], s, [Ask(2, 'B', "y")] + [Fill(2, MIRROR)], t);
  }

  /** Nothing keeps two writes apart. Begun together, each mirrors its own recipe into the other's
      letter, and the second undoes what the first sent: letter A is recorded with one recipe and
      holds the other. */
  lemma OverlappingWritesDisagree(parse: string -> Identifier) returns (t: Slots)
    ensures Reaches(BEFORE, parse, OVERLAP, t)
    ensures !Agrees(t.machine, t.recipes, t.records)
  {
    var a := ([Ask(1, 'A', "x")] + [Fill(1, MIRROR)]) + ([Ask(2, 'B', "y")] + [Fill(2, MIRROR)]);
    var s1 := BothFilled(parse);
    var s2 := BatchSends(s1, parse, 1, true);
    ReachesAppend(BEFORE, parse, a, s1, Batch(1, true), s2);
    var s3 := BatchSends(s2, parse, 2, true);
    ReachesAppend(BEFORE, parse, a + Batch(1, true), s2, Batch(2, true), s3);
    var s4 := CommitOne(BEFORE, parse, a + Batch(1, true) + Batch(2, true), s3, 1);
    t := CommitOne(BEFORE, parse, a + Batch(1, true) + Batch(2, true) + [Commit(1)], s4, 2);
    HoldsTheWrong(t.machine, t.recipes, t.records, 'A', "x", 2, 1);
  }

  // ------------------------------------------------------------------
  // The program
  // ------------------------------------------------------------------

  datatype Result =
    | Written | RecipeNotFound | NoRecipeSelected | TeaNotSupported | NotConnected | FirmwareTooOld | InvalidSlot | WriteFailed

  /** The link, the machine and the sleep flag, as the writes find them. */
  datatype World = World(sends: nat -> bool, asleep: nat -> bool, readsAsleep: nat -> bool)

  class Coordinator {
    const parse: string -> Identifier
    var recipes: View
    var selected: Option<string>
    var records: Records
    var machine: Machine
    var sent: nat

    constructor (parse: string -> Identifier, recipes: View)
      ensures this.parse == parse && this.recipes == recipes && records == map[] && machine == map[]
    {
      this.parse, this.recipes := parse, recipes;
      selected, records, machine, sent := None, map[], map[], 0;
    }

    static method EncodeSlot(recipe: Payload.Recipe) returns (bytes: Option<seq<byte>>)
      requires Payload.ValidRecipe(recipe)
      ensures bytes == Encoding(recipe)
    {
      var grinderOn := recipe.grindSize > 0 && recipe.beanWeight > 0.0;
      var flags := (if grinderOn then 0x02 else 0x04) + 0x10;
      var blob := Payload.BuildCoffeeRecipePayload(recipe);
      return if blob.None? then None else Some([flags] + blob.value);
    }

    /** One letter of async_write_easy_slots. The machine keeps what it is awake for. */
    method SendSlot(i: nat, slots: map<char, Payload.Recipe>, world: World,
                    ghost before: Machine, ghost blobs: map<char, Option<seq<byte>>>, ghost already: set<char>)
      returns (ok: bool, ghost received: set<char>)
      requires i < 3 && Compiled(slots, blobs) && Delivered(before, machine, blobs, already)
      modifies this`machine, this`sent
      ensures sent == old(sent) + 1 && Delivered(before, machine, blobs, received)
      ensures received == if ok && !world.asleep(sent) then already + {LETTERS[i]} else already
      ensures !(ok && !world.asleep(sent)) ==> machine == old(machine)
      ensures !ok ==> Refused(blobs, world, sent)
    {
      received := already;
      var bytes := EncodeSlot(slots[LETTERS[i]]);
      sent := sent + 1;
      ok := bytes.Some? && world.sends(sent);
      if ok && !world.asleep(sent) {
        OneDelivered(before, machine, blobs, received, i);
        machine := machine[i := bytes.value];
        received := received + {LETTERS[i]};
      }
    }

    /** async_write_easy_slots: one 11510 per letter, then the slot order. `already` are the letters
        received in earlier attempts of the same write. */
    method WriteEasySlots(slots: map<char, Payload.Recipe>, world: World,
                          ghost before: Machine, ghost blobs: map<char, Option<seq<byte>>>, ghost already: set<char>)
      returns (ok: bool, ghost received: set<char>)
      requires Compiled(slots, blobs) && Delivered(before, machine, blobs, already)
      modifies this`machine, this`sent
      ensures old(sent) <= sent && Delivered(before, machine, blobs, received)
      ensures AllAsleep(world, old(sent), sent) ==> received == already && machine == old(machine)
      ensures ok && AllAwake(world, old(sent), sent) ==> received == {'A', 'B', 'C'}
      ensures ok ==> sent == old(sent) + 4
      ensures !ok ==> Refused(blobs, world, sent)
    {
      received := already;
      ok := true;
      var i := 0;
      while i < 3
        invariant 0 <= i <= 3 && sent == old(sent) + i && Delivered(before, machine, blobs, received)
        invariant AllAsleep(world, old(sent), sent) ==> received == already && machine == old(machine)
        invariant AllAwake(world, old(sent), sent) ==> FirstIn(i, received)
      {
        OneMoreSend(world, old(sent), sent, i, received);
        ok, received := SendSlot(i, slots, world, before, blobs, received);
        if !ok {
          return;
        }
        i := i + 1;
      }
      AllReceived(before, machine, blobs, received);
      OneMore(world, old(sent), sent);
      sent := sent + 1;
      ok := world.sends(sent);
    }

    /** The batch under the sleep retry: sent again while the machine reads asleep, three times at
        most, and then taken as written. `last` is where the last attempt began. */
    method WriteWhileSleeping(slots: map<char, Payload.Recipe>, world: World, ghost blobs: map<char, Option<seq<byte>>>)
      returns (ok: bool, ghost received: set<char>, ghost last: nat)
      requires Compiled(slots, blobs)
      modifies this`machine, this`sent
      ensures old(sent) <= last <= sent && Delivered(old(machine), machine, blobs, received)
      ensures AllAsleep(world, old(sent), sent) ==> received == {} && machine == old(machine)
      ensures ok && AllAwake(world, last, sent) ==> received == {'A', 'B', 'C'}
      ensures ok ==> Repeated(world, old(sent), last, sent)
      ensures !ok ==> Refused(blobs, world, sent)
    {
      ghost var before, start := machine, sent;
      received, last := {}, sent;
      ok := true;
      var attempt := 1;
      while attempt <= 3
        invariant 1 <= attempt <= 4 && ok && start <= last <= sent
        invariant Delivered(before, machine, blobs, received)
        invariant AllAsleep(world, start, sent) ==> received == {} && machine == before
        invariant attempt > 1 && AllAwake(world, last, sent) ==> received == {'A', 'B', 'C'}
        invariant sent == start + 4 * (attempt - 1) && AsleepAfter(world, start, attempt)
        invariant attempt == 4 ==> Repeated(world, start, last, sent)
      {
        last := sent;
        ok, received := WriteEasySlots(slots, world, before, blobs, received);
        if AllAsleep(world, start, sent) {
          AsleepInParts(world, start, last, sent);
        }
        if !ok {
          return;
        }
        RepeatedBy(world, start, attempt, sent);
        if !world.readsAsleep(sent) {
          return;
        }
        attempt := attempt + 1;
      }
    }

    method ChooseFor(letter: char, c: char) returns (found: Option<string>)
      ensures Chosen(recipes, records, parse, letter, c, found) && (found.Some? ==> found.value in recipes)
    {
      found := None;
      if c != letter && c in records && records[c].uid != "" {
        found := FindRecipe(recipes, parse(records[c].uid));
        FindsNone(recipes, parse(records[c].uid), found);
      }
    }

    /** Picks the recipe of every letter. */
    method FillSlots(letter: char) returns (choice: map<char, Option<string>>)
      ensures Fills(recipes, records, parse, letter, choice)
    {
      choice := map[];
      var i := 0;
      while i < 3
        invariant 0 <= i <= 3 && choice.Keys <= {'A', 'B', 'C'} && forall j :: 0 <= j < i ==> LETTERS[j] in choice
        invariant forall c :: c in choice ==> Chosen(recipes, records, parse, letter, c, choice[c])
      {
        var found := ChooseFor(letter, LETTERS[i]);
        choice := choice[LETTERS[i] := found];
        i := i + 1;
      }
      assert LETTERS[0] in choice && LETTERS[1] in choice && LETTERS[2] in choice;
    }

    /** The recipe asked for: by identifier, or else the selected one. */
    method ResolveTarget(id: Option<Identifier>) returns (result: Result, name: string)
      ensures result in {Written, RecipeNotFound, NoRecipeSelected}
      ensures result.Written? ==> name in recipes
      ensures result.Written? ==> if id.Some? then Finds(recipes, id.value, Some(name)) else selected == Some(name)
      ensures result.RecipeNotFound? <==> id.Some? && Finds(recipes, id.value, None)
      ensures result.NoRecipeSelected? <==> id.None? && (selected.None? || selected.value !in recipes)
    {
      if id.Some? {
        var found := FindRecipe(recipes, id.value);
        FindsNone(recipes, id.value, found);
        return if found.None? then RecipeNotFound else Written, if found.None? then "" else found.value;
      }
      if selected.None? || selected.value !in recipes {
        return NoRecipeSelected, "";
      }
      return Written, selected.value;
    }

    /** Fills, builds and sends the batch. */
    method WriteBatch(letter: char, target: Recipe, world: World) returns (ok: bool, ghost received: set<char>, ghost last: nat)
      requires IsLetter(letter) && target.name in recipes && recipes[target.name] == target && Sound(recipes) && Parses(parse)
      modifies this`machine, this`sent
      ensures ok ==> AgreesIff(recipes, Asking(records, letter, target), old(machine), machine, received)
      ensures AllAsleep(world, old(sent), sent) ==> received == {} && machine == old(machine)
      ensures ok ==> last <= sent && (AllAwake(world, last, sent) ==> received == {'A', 'B', 'C'})
      ensures ok ==> Repeated(world, old(sent), last, sent)
      ensures !ok ==> CannotBuild(recipes, records, parse, letter, target) || !world.sends(sent)
    {
      received, last := {}, sent;
      var choice := FillSlots(letter);
      var slots := map c | c in choice :: BrewFor(recipes, target, choice[c]);
      if !Builds(slots) {
        ok := false;
        ghost var c :| c in slots && !Payload.ValidRecipe(slots[c]);
        assert Blobs(recipes, target, choice)[c].None?;
        return;
      }
      ok, received, last := WriteWhileSleeping(slots, world, Blobs(recipes, target, choice));
      if ok {
        WriteAgreesIff(recipes, records, parse, letter, target, choice, old(machine), machine, received);
      }
    }

    /** async_write_easy_slot, uninterrupted. Only the record of the letter asked for changes, and
        only on success. The machine then agrees with the records exactly if every recorded
        letter was received awake or held the right bytes before; so it does if the machine was
        awake for the attempt that ended the retry, which began after send `last`, and a machine
        that slept throughout is as it was. */
    method WriteEasySlot(letter: char, id: Option<Identifier>, connected: bool, firmwareOk: bool, world: World)
      returns (result: Result, name: string, ghost received: set<char>, ghost last: nat)
      requires Sound(recipes) && NamedByKey(recipes) && Parses(parse)
      modifies this`records, this`machine, this`sent
      ensures result.Written? ==>
                && IsLetter(letter) && name in recipes && !IsTea(recipes[name])
                && records == old(records)[letter := Record(recipes[name].uid, name)]
                && AgreesIff(recipes, records, old(machine), machine, received)
      ensures result.Written? ==> if id.Some? then Finds(recipes, id.value, Some(name)) else selected == Some(name)
      ensures result.Written? ==> last <= sent && (AllAwake(world, last, sent) ==> Agrees(machine, recipes, records))
      ensures AllAsleep(world, old(sent), sent) ==> machine == old(machine)
      ensures !result.Written? ==> records == old(records)
      ensures !result.Written? && !result.WriteFailed? ==> machine == old(machine)
      ensures result.Written? ==> Repeated(world, old(sent), last, sent)
      ensures result.WriteFailed? ==>
                || (name in recipes && CannotBuild(recipes, records, parse, letter, recipes[name]))
                || !world.sends(sent)
      ensures result.RecipeNotFound? <==> id.Some? && Finds(recipes, id.value, None)
      ensures result.NoRecipeSelected? <==> id.None? && (selected.None? || selected.value !in recipes)
      ensures result.RecipeNotFound? || result.NoRecipeSelected? || (name in recipes && Verdict(result, recipes[name], connected, firmwareOk, letter))
    {
      received, last := {}, sent;
      result, name := ResolveTarget(id);
      if !result.Written? {
        return;
      }
      if IsTea(recipes[name]) {
        result := TeaNotSupported;
        return;
      }
      if !connected {
        result := NotConnected;
        return;
      }
      if !firmwareOk {
        result := FirmwareTooOld;
        return;
      }
      if !IsLetter(letter) {
        result := InvalidSlot;
        return;
      }
      var ok;
      ok, received, last := WriteBatch(letter, recipes[name], world);
      if !ok {
        result := WriteFailed;
        return;
      }
      records := records[letter := Record(recipes[name].uid, name)];
    }
  }

  /** Some letter can be filled with a recipe that does not build or pack. */
  ghost predicate CannotBuild(recipes: View, records: Records, parse: string -> Identifier, letter: char, target: Recipe) {
    exists choice, c ::
      Fills(recipes, records, parse, letter, choice) && c in Blobs(recipes, target, choice) && Blobs(recipes, target, choice)[c].None?
  }

  /** What a write of a recipe comes to before anything is sent: the refusals in their order. */
  ghost predicate Verdict(result: Result, target: Recipe, connected: bool, firmwareOk: bool, letter: char) {
    if target.brew.cupType == 4 then result.TeaNotSupported?
    else if !connected then result.NotConnected?
    else if !firmwareOk then result.FirmwareTooOld?
    else if letter !in {'A', 'B', 'C'} then result.InvalidSlot?
    else result.Written? || result.WriteFailed?
  }

  /** A recipe of some letter does not pack, or the last send failed. */
  ghost predicate Refused(blobs: map<char, Option<seq<byte>>>, world: World, sent: nat) {
    (exists c :: c in blobs && blobs[c].None?) || !world.sends(sent)
  }

  /** Batches of three letters and the slot order: each but the last was followed by a reading that
      said asleep, and the last by one that did not, or it was the third. */
  ghost predicate Repeated(world: World, from: nat, last: nat, to: nat) {
    exists n: nat ::
      && 1 <= n <= 3 && to == from + 4 * n && last == to - 4
      && AsleepAfter(world, from, n)
      && (n < 3 ==> !world.readsAsleep(to))
  }

  /** Every batch before the n-th was followed by a reading that said asleep. */
  ghost predicate AsleepAfter(world: World, from: nat, n: nat) {
    forall k :: 1 <= k < n ==> world.readsAsleep(from + 4 * k)
  }

  lemma RepeatedBy(world: World, from: nat, n: nat, to: nat)
    requires 1 <= n <= 3 && to == from + 4 * n && AsleepAfter(world, from, n)
    ensures n == 3 || !world.readsAsleep(to) ==> Repeated(world, from, to - 4, to)
    ensures world.readsAsleep(to) ==> AsleepAfter(world, from, n + 1)
  {
  }

  lemma AsleepInParts(world: World, from: nat, middle: nat, to: nat)
    requires from <= middle <= to && AllAsleep(world, from, to)
    ensures AllAsleep(world, from, middle) && AllAsleep(world, middle, to)
  {
  }

  ghost predicate AllAsleep(world: World, from: nat, to: nat) {
    forall k :: from < k <= to ==> world.asleep(k)
  }

  ghost predicate AllAwake(world: World, from: nat, to: nat) {
    forall k :: from < k <= to ==> !world.asleep(k)
  }

  /** The exact condition for agreement after a write. */
  ghost predicate AgreesIff(recipes: View, records: Records, before: Machine, after: Machine, received: set<char>) {
    Agrees(after, recipes, records) <==>
    forall c, n :: Recorded(recipes, records, c, n) ==> c in received || Holds(before, c, Encoding(recipes[n].brew))
  }

  predicate Builds(slots: map<char, Payload.Recipe>) {
    forall c :: c in slots ==> Payload.ValidRecipe(slots[c])
  }

  /** The recipes of the three letters build, and `blobs` are their encodings. */
  ghost predicate Compiled(slots: map<char, Payload.Recipe>, blobs: map<char, Option<seq<byte>>>) {
    && slots.Keys == blobs.Keys == {'A', 'B', 'C'} && Builds(slots)
    && forall c :: c in slots ==> blobs[c] == Encoding(slots[c])
  }

  /** The first i letters are among the received ones. */
  ghost predicate FirstIn(i: int, received: set<char>)
    requires 0 <= i <= 3
  {
    forall j :: 0 <= j < i ==> LETTERS[j] in received
  }

  lemma OneMore(world: World, from: nat, to: nat)
    requires from <= to
    ensures AllAsleep(world, from, to + 1) <==> AllAsleep(world, from, to) && world.asleep(to + 1)
    ensures AllAwake(world, from, to + 1) <==> AllAwake(world, from, to) && !world.asleep(to + 1)
  {
  }

  lemma OneMoreSend(world: World, from: nat, to: nat, i: nat, received: set<char>)
    requires from <= to && i < 3 && (AllAwake(world, from, to) ==> FirstIn(i, received))
    ensures AllAsleep(world, from, to + 1) ==> AllAsleep(world, from, to) && world.asleep(to + 1)
    ensures AllAwake(world, from, to + 1) ==> FirstIn(i + 1, received + {LETTERS[i]}) && !world.asleep(to + 1)
  {
    OneMore(world, from, to);
  }

  lemma AllReceived(before: Machine, after: Machine, blobs: map<char, Option<seq<byte>>>, received: set<char>)
    requires Delivered(before, after, blobs, received)
    ensures FirstIn(3, received) ==> received == {'A', 'B', 'C'}
  {
    if FirstIn(3, received) {
      assert LETTERS[0] in received && LETTERS[1] in received && LETTERS[2] in received;
    }
  }

  lemma OneDelivered(before: Machine, after: Machine, blobs: map<char, Option<seq<byte>>>, received: set<char>, i: nat)
    requires i < 3 && Delivered(before, after, blobs, received) && blobs[LETTERS[i]].Some?
    ensures Delivered(before, after[i := blobs[LETTERS[i]].value], blobs, received + {LETTERS[i]})
  {
    assert Index(LETTERS[i]) == i;
  }
}
