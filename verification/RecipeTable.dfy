/** The recipe store as a flat table: what its layers, tombstones and rebuilds amount to. */
module RecipeTable {
  import opened Basics
  import opened Names
  import opened RecipeStore
  import Payload

  /** The store as its users see it: a table of recipes by uid, the names the store speaks for
      (recipes and tombstones), the YAML names, and the seeding flags. */
  datatype Table = Table(rows: map<Uid, Recipe>, own: set<string>, yaml: set<string>, seeded: bool, accountSeeded: bool)

  function NamesIn(rows: map<Uid, Recipe>): set<string> {
    set u | u in rows :: rows[u].name
  }

  /** Some row answers to the identifier. */
  predicate Known(rows: map<Uid, Recipe>, id: Identifier) {
    id.text != "" && exists u :: u in rows && Answers(rows[u], id)
  }

  predicate Answers(r: Recipe, id: Identifier) { HasUid(r, id) || HasTable(r, id) || HasShare(r, id) || r.name == id.text }

  ghost function Added(t: Table, r: Recipe): Table { t.(rows := t.rows[r.uid := r], own := t.own + {r.name}) }

  ghost function NewRow(d: Draft, rows: map<Uid, Recipe>, uid: Uid, source: Source): Recipe {
    Recipe(Deduped(d.name, NamesIn(rows)), uid, d.tableId, ShareIdOf(d), source, d.brew)
  }

  predicate PodKnown(rows: map<Uid, Recipe>, d: Draft) {
    if d.link.Some? then Known(rows, d.link.value)
    else exists u :: u in rows && rows[u].source == Pod && rows[u].name == d.name
  }

  ghost function PodRows(t: Table, drafts: seq<Draft>, uids: seq<Uid>): Table
    requires |drafts| == |uids|
    decreases |drafts|
  {
    if drafts == [] then t
    else PodRows(if PodKnown(t.rows, drafts[0]) || !drafts[0].valid then t else Added(t, NewRow(drafts[0], t.rows, uids[0], Pod)),
                 drafts[1..], uids[1..])
  }

  ghost function SeedRows(t: Table, source: Source, drafts: seq<Draft>, uids: seq<Uid>): Table
    requires |drafts| == |uids|
    decreases |drafts|
  {
    if drafts == [] then t
    else
      var d := drafts[0];
      SeedRows(if !d.valid || d.name in t.own || d.name in t.yaml then t
               else Added(t, Recipe(d.name, uids[0], d.tableId, ShareIdOf(d), source, d.brew)),
               source, drafts[1..], uids[1..])
  }

  /** The edit of the row called n is accepted. */
  predicate RowEditAccepted(rows: map<Uid, Recipe>, n: string, c: Changes) {
    n in NamesIn(rows) && c.valid && (Either(c.name, n) == n || Either(c.name, n) !in NamesIn(rows))
  }

  function WithoutOwn(t: Table, n: string): set<string> { if n in t.yaml then t.own + {n} else t.own - {n} }

  function EditedRows(rows: map<Uid, Recipe>, n: string, c: Changes): map<Uid, Recipe> {
    map u | u in rows :: if rows[u].name == n then Edited(rows[u], c) else rows[u]
  }

  function ExportedRows(rows: map<Uid, Recipe>, n: string, table: int, share: Option<string>): map<Uid, Recipe> {
    map u | u in rows :: if rows[u].name == n then Exported(rows[u], table, share) else rows[u]
  }

  function DeletedRows(rows: map<Uid, Recipe>, names: set<string>): map<Uid, Recipe> {
    map u | u in rows && rows[u].name !in names :: rows[u]
  }

  /** Every operation on the table alone. */
  ghost function RowStep(t: Table, e: Event): Table
    requires Sized(e)
  {
    match e
    case Create(d, uid) => if d.valid then Added(t, NewRow(d.(tableId := None, link := None), t.rows, uid, Manual)) else t
    case Import(d, uid) => if d.valid then Added(t, NewRow(d, t.rows, uid, Imported)) else t
    case SavePods(drafts, uids) => PodRows(t, drafts, uids)
    case Edit(_, found, c) =>
      if found.None? || !RowEditAccepted(t.rows, found.value, c) then t
      else
        var n, m := found.value, Either(c.name, found.value);
        t.(rows := EditedRows(t.rows, n, c),
           own := (if m == n then t.own else WithoutOwn(t, n)) + {m})
    case Delete(_, found) =>
      if found.None? then t
      else t.(rows := DeletedRows(t.rows, {found.value}), own := WithoutOwn(t, found.value))
    case Export(_, found, table, share) =>
      if found.None? then t
      else t.(rows := ExportedRows(t.rows, found.value, table, share), own := t.own + {found.value})
    case SeedDefaults(defaults, minted) =>
      if t.own != {} || t.seeded || defaults == map[] then t
      else t.(rows := DeletedRows(t.rows, defaults.Keys) + BundledRows(defaults, minted), own := defaults.Keys)
    case SeedFetched(account, drafts, uids) =>
      if (if account then t.accountSeeded else t.seeded) then t
      else SeedRows(t, if account then SeedCloud else SeedOfficial, drafts, uids)
           .(seeded := true, accountSeeded := t.accountSeeded || account)
    case Rebuild => t
  }

  ghost function BundledRows(defaults: map<string, Payload.Recipe>, minted: map<string, Uid>): map<Uid, Recipe>
    requires minted.Keys == defaults.Keys && Injective(minted)
  {
    map n | n in defaults :: minted[n] := Recipe(n, minted[n], None, None, SeedBundled, defaults[n])
  }

  // ------------------------------------------------------------------
  // Views and rows
  // ------------------------------------------------------------------

  /** `rows` are the recipes of the view, keyed by uid. */
  ghost predicate Lists(v: View, rows: map<Uid, Recipe>) {
    && (forall n :: n in v ==> v[n].uid in rows && rows[v[n].uid] == v[n])
    && (forall u :: u in rows ==> Carries(v, u))
  }

  /** The layered book and the table say the same. */
  ghost predicate Abstracts(b: Book, t: Table) {
    && Lists(b.visible, t.rows)
    && t.own == b.store.Keys && t.yaml == b.yaml.Keys
    && t.seeded == b.seeded && t.accountSeeded == b.accountSeeded
  }

  lemma RowOf(v: View, rows: map<Uid, Recipe>, u: Uid) returns (n: string)
    requires Lists(v, rows) && u in rows
    ensures n in v && v[n].uid == u && rows[u] == v[n]
  {
    n :| n in v && v[n].uid == u;
  }

  lemma NamesMatch(v: View, rows: map<Uid, Recipe>)
    requires Lists(v, rows) && NamedByKey(v)
    ensures NamesIn(rows) == v.Keys
  {
    forall n | n in v
      ensures n in NamesIn(rows)
    {
      assert rows[v[n].uid].name == n;
    }
    forall u | u in rows
      ensures rows[u].name in v
    {
      var n := RowOf(v, rows, u);
    }
  }

  lemma OneRowNamed(v: View, rows: map<Uid, Recipe>, n: string)
    requires Lists(v, rows) && NamedByKey(v) && n in v
    ensures forall u :: u in rows ==> (rows[u].name == n <==> u == v[n].uid)
  {
    forall u | u in rows
      ensures rows[u].name == n <==> u == v[n].uid
    {
      var m := RowOf(v, rows, u);
    }
  }

  lemma KnownMatch(v: View, rows: map<Uid, Recipe>, id: Identifier)
    requires Lists(v, rows) && NamedByKey(v)
    ensures Known(rows, id) <==> !Finds(v, id, None)
  {
    if Known(rows, id) {
      var u :| u in rows && Answers(rows[u], id);
      var n := RowOf(v, rows, u);
      assert HasUid(v[n], id) || HasTable(v[n], id) || HasShare(v[n], id) || id.text == n;
    } else if id.text != "" {
      forall n | n in v
        ensures !Answers(v[n], id)
      {
        assert rows[v[n].uid] == v[n];
      }
    }
  }

  lemma PodKnownMatch(v: View, rows: map<Uid, Recipe>, d: Draft)
    requires Lists(v, rows) && NamedByKey(v)
    ensures PodKnown(rows, d) <==> AlreadySaved(v, d)
  {
    if d.link.Some? {
      KnownMatch(v, rows, d.link.value);
    } else {
      if AlreadySaved(v, d) {
        assert rows[v[d.name].uid] == v[d.name];
      }
      if PodKnown(rows, d) {
        var u :| u in rows && rows[u].source == Pod && rows[u].name == d.name;
        var n := RowOf(v, rows, u);
      }
    }
  }

  lemma CarriedAfterPut(v: View, n: string, r: Recipe, u: Uid)
    requires Carries(v, u) && u != r.uid && (n in v ==> v[n].uid == r.uid) && (n == r.name || r.name !in v)
    ensures Carries((v - {n})[r.name := r], u)
  {
    var m :| m in v && v[m].uid == u;
    CarriedBy((v - {n})[r.name := r], m);
  }

  lemma KeptAfterPut(v: View, rows: map<Uid, Recipe>, n: string, r: Recipe, m: string)
    requires Lists(v, rows) && DistinctUids(v) && m in v && m != n
    requires if n in v then v[n].uid == r.uid else !Carries(v, r.uid)
    ensures v[m].uid in rows && rows[v[m].uid] == v[m] && v[m].uid != r.uid
  {
    assert n !in v ==> v[m].uid != r.uid;
  }

  lemma ListsPut(v: View, rows: map<Uid, Recipe>, n: string, r: Recipe)
    requires Lists(v, rows) && DistinctUids(v) && (n == r.name || r.name !in v)
    requires if n in v then v[n].uid == r.uid else !Carries(v, r.uid)
    ensures Lists((v - {n})[r.name := r], rows[r.uid := r])
  {
    var after := (v - {n})[r.name := r];
    CarriedBy(after, r.name);
    forall u | u in rows && u != r.uid
      ensures Carries(after, u)
    {
      CarriedAfterPut(v, n, r, u);
    }
    forall m | m in after && m != r.name
      ensures after[m].uid in rows && rows[after[m].uid] == after[m] && after[m].uid != r.uid
    {
      KeptAfterPut(v, rows, n, r, m);
    }
  }

  lemma ListsRemove(v: View, rows: map<Uid, Recipe>, n: string)
    requires Lists(v, rows) && DistinctUids(v) && n in v
    ensures Lists(v - {n}, rows - {v[n].uid})
  {
    forall u | u in rows && u != v[n].uid
      ensures Carries(v - {n}, u)
    {
      var m :| m in v && v[m].uid == u;
      CarriedBy(v - {n}, m);
    }
  }

  // ------------------------------------------------------------------
  // Refinement
  // ------------------------------------------------------------------

  /** A book with this store and otherwise like b; what the layers alone decide. */
  ghost predicate Layers(yaml: View, store: Layer, t: Table) {
    && Layered(yaml, store) && Lists(Overlay(yaml, store), t.rows)
    && t.own == store.Keys && t.yaml == yaml.Keys
  }

  lemma AddRefines(yaml: View, store: Layer, used: set<Uid>, t: Table, r: Recipe)
    requires Layers(yaml, store, t) && AllUsed(yaml, store, used) && r.uid !in used && r.name !in Overlay(yaml, store)
    ensures Layers(yaml, Put(store, r), Added(t, r)) && AllUsed(yaml, Put(store, r), used + {r.uid})
  {
    var v := Overlay(yaml, store);
    OverlayDistinct(yaml, store);
    PutFresh(yaml, store, used, r);
    FreshUnseen(yaml, store, used, r.uid);
    UnseenNotCarried(yaml, store, r.uid);
    PutNew(yaml, store, r);
    assert v - {r.name} == v;
    ListsPut(v, t.rows, r.name, r);
  }

  lemma {:induction false} PodsRefine(yaml: View, store: Layer, used: set<Uid>, t: Table, drafts: seq<Draft>, uids: seq<Uid>)
    requires Layers(yaml, store, t) && AllUsed(yaml, store, used)
    requires |drafts| == |uids| && Distinct(uids) && Set(uids) !! used
    ensures Layers(yaml, PodsSaved(yaml, store, drafts, uids), PodRows(t, drafts, uids))
    decreases |drafts|
  {
    if drafts != [] {
      SetSplit(uids);
      var v := Overlay(yaml, store);
      OverlayDistinct(yaml, store);
      NamesMatch(v, t.rows);
      PodKnownMatch(v, t.rows, drafts[0]);
      if AlreadySaved(v, drafts[0]) || !drafts[0].valid {
        PodsRefine(yaml, store, used + {uids[0]}, t, drafts[1..], uids[1..]);
      } else {
        var r := Named(drafts[0], v, uids[0], Pod);
        AddRefines(yaml, store, used, t, r);
        PodsRefine(yaml, Put(store, r), used + {uids[0]}, Added(t, r), drafts[1..], uids[1..]);
      }
    }
  }

  lemma {:induction false} SeedsRefine(yaml: View, store: Layer, used: set<Uid>, t: Table, source: Source, drafts: seq<Draft>, uids: seq<Uid>)
    requires Layers(yaml, store, t) && AllUsed(yaml, store, used)
    requires |drafts| == |uids| && Distinct(uids) && Set(uids) !! used
    ensures Layers(yaml, Seeded(yaml, store, source, drafts, uids), SeedRows(t, source, drafts, uids))
    decreases |drafts|
  {
    if drafts != [] {
      SetSplit(uids);
      var d := drafts[0];
      if !d.valid || d.name in store || d.name in yaml {
        SeedsRefine(yaml, store, used + {uids[0]}, t, source, drafts[1..], uids[1..]);
      } else {
        var r := Recipe(d.name, uids[0], d.tableId, ShareIdOf(d), source, d.brew);
        AddRefines(yaml, store, used, t, r);
        SeedsRefine(yaml, Put(store, r), used + {uids[0]}, Added(t, r), source, drafts[1..], uids[1..]);
      }
    }
  }

  lemma {:induction false} PodRowsFlags(t: Table, drafts: seq<Draft>, uids: seq<Uid>)
    requires |drafts| == |uids|
    ensures PodRows(t, drafts, uids).seeded == t.seeded && PodRows(t, drafts, uids).accountSeeded == t.accountSeeded
    decreases |drafts|
  {
    if drafts != [] {
      var next := if PodKnown(t.rows, drafts[0]) || !drafts[0].valid then t else Added(t, NewRow(drafts[0], t.rows, uids[0], Pod));
      PodRowsFlags(next, drafts[1..], uids[1..]);
    }
  }

  /** Only the row with this uid is called n. */
  ghost predicate OnlyNamed(rows: map<Uid, Recipe>, n: string, u: Uid) {
    u in rows && forall w :: w in rows ==> (rows[w].name == n <==> w == u)
  }

  lemma EditsOne(rows: map<Uid, Recipe>, n: string, u: Uid, c: Changes)
    requires OnlyNamed(rows, n, u)
    ensures EditedRows(rows, n, c) == rows[u := Edited(rows[u], c)]
  {
  }

  lemma ExportsOne(rows: map<Uid, Recipe>, n: string, u: Uid, table: int, share: Option<string>)
    requires OnlyNamed(rows, n, u)
    ensures ExportedRows(rows, n, table, share) == rows[u := Exported(rows[u], table, share)]
  {
  }

  lemma DeletesOne(rows: map<Uid, Recipe>, n: string, u: Uid)
    requires OnlyNamed(rows, n, u)
    ensures DeletedRows(rows, {n}) == rows - {u}
  {
  }

  lemma RewriteRefines(b: Book, t: Table, n: string, r: Recipe)
    requires Inv(b) && Abstracts(b, t) && n in b.visible && r.uid == b.visible[n].uid && (r.name == n || r.name !in b.visible)
    ensures Lists(Overlay(b.yaml, EditedStore(b.yaml, b.store, n, r)), t.rows[r.uid := r])
    ensures EditedStore(b.yaml, b.store, n, r).Keys == (if r.name == n then t.own else WithoutOwn(t, n)) + {r.name}
    ensures OnlyNamed(t.rows, n, r.uid) && t.rows[r.uid] == b.visible[n]
  {
    OverlayDistinct(b.yaml, b.store);
    OneRowNamed(b.visible, t.rows, n);
    EditKeeps(b, n, r);
    ListsPut(b.visible, t.rows, n, r);
  }

  lemma EditRefines(b: Book, e: Event, t: Table)
    requires Inv(b) && Possible(b, e) && Abstracts(b, t) && e.Edit?
    ensures Abstracts(Step(b, e), RowStep(t, e))
  {
    EditStep(b, e.id, e.found, e.changes);
    if e.found.Some? {
      FindsNone(b.visible, e.id, e.found);
      SameVerdict(b, t, e.found.value, e.changes);
      if EditAccepted(b.visible, e.found, e.changes) {
        AcceptedEditRefines(b, t, e.found.value, e.changes);
      }
    }
  }

  lemma SameVerdict(b: Book, t: Table, n: string, c: Changes)
    requires Inv(b) && Abstracts(b, t) && n in b.visible
    ensures EditAccepted(b.visible, Some(n), c) <==> RowEditAccepted(t.rows, n, c)
    ensures Edited(b.visible[n], c).name == Either(c.name, n)
  {
    OverlayDistinct(b.yaml, b.store);
    NamesMatch(b.visible, t.rows);
  }

  lemma AcceptedEditRefines(b: Book, t: Table, n: string, c: Changes)
    requires Inv(b) && Abstracts(b, t) && n in b.visible && EditAccepted(b.visible, Some(n), c)
    ensures var r := Edited(b.visible[n], c);
            var store := EditedStore(b.yaml, b.store, n, r);
            && Lists(Overlay(b.yaml, store), EditedRows(t.rows, n, c))
            && store.Keys == (if r.name == n then t.own else WithoutOwn(t, n)) + {r.name}
  {
    var r := Edited(b.visible[n], c);
    RewriteRefines(b, t, n, r);
    EditsOne(t.rows, n, r.uid, c);
  }

  lemma ExportRefines(b: Book, e: Event, t: Table)
    requires Inv(b) && Possible(b, e) && Abstracts(b, t) && e.Export?
    ensures Abstracts(Step(b, e), RowStep(t, e))
  {
    if e.found.Some? {
      var n := e.found.value;
      FindsNone(b.visible, e.id, e.found);
      OverlayDistinct(b.yaml, b.store);
      var r := Exported(b.visible[n], e.newTable, e.newShare);
      RewriteRefines(b, t, n, r);
      ExportsOne(t.rows, n, r.uid, e.newTable, e.newShare);
    }
  }

  lemma DropRefines(yaml: View, store: Layer, t: Table, n: string)
    requires Layers(yaml, store, t) && n in Overlay(yaml, store)
    ensures Lists(Overlay(yaml, Drop(yaml, store, n)), DeletedRows(t.rows, {n}))
    ensures Drop(yaml, store, n).Keys == WithoutOwn(t, n)
  {
    var v := Overlay(yaml, store);
    OverlayDistinct(yaml, store);
    OneRowNamed(v, t.rows, n);
    DropVisible(yaml, store, n);
    ListsRemove(v, t.rows, n);
    DeletesOne(t.rows, n, v[n].uid);
  }

  lemma DeleteRefines(b: Book, e: Event, t: Table)
    requires Inv(b) && Possible(b, e) && Abstracts(b, t) && e.Delete?
    ensures Abstracts(Step(b, e), RowStep(t, e))
  {
    if e.found.Some? {
      FindsNone(b.visible, e.id, e.found);
      DropRefines(b.yaml, b.store, t, e.found.value);
    }
  }

  lemma CreateRefines(b: Book, e: Event, t: Table)
    requires Inv(b) && Possible(b, e) && Abstracts(b, t) && (e.Create? || e.Import?)
    ensures Abstracts(Step(b, e), RowStep(t, e))
  {
    OverlayDistinct(b.yaml, b.store);
    NamesMatch(b.visible, t.rows);
    if e.draft.valid {
      var d := if e.Create? then e.draft.(tableId := None, link := None) else e.draft;
      AddRefines(b.yaml, b.store, b.used, t, Named(d, b.visible, e.uid, if e.Create? then Manual else Imported));
    }
  }

  lemma BundledLists(yaml: View, rows: map<Uid, Recipe>, defaults: map<string, Payload.Recipe>, minted: map<string, Uid>)
    requires Lists(yaml, rows) && NamedByKey(yaml) && minted.Keys == defaults.Keys && Injective(minted)
    requires forall n :: n in yaml ==> yaml[n].uid !in minted.Values
    ensures Lists(Overlay(yaml, Bundled(defaults, minted)), DeletedRows(rows, defaults.Keys) + BundledRows(defaults, minted))
  {
    var after := Overlay(yaml, Bundled(defaults, minted));
    var kept, fresh_ := DeletedRows(rows, defaults.Keys), BundledRows(defaults, minted);
    forall n | n in after
      ensures after[n].uid in kept + fresh_ && (kept + fresh_)[after[n].uid] == after[n]
    {
      if n in defaults {
        assert minted[n] in fresh_;
      } else {
        assert rows[yaml[n].uid] == yaml[n] && yaml[n].uid in kept;
      }
    }
    forall u | u in kept + fresh_
      ensures Carries(after, u)
    {
      if u in fresh_ {
        var n :| n in minted && minted[n] == u;
        CarriedBy(after, n);
      } else {
        var n := RowOf(yaml, rows, u);
        CarriedBy(after, n);
      }
    }
  }

  lemma EmptyStoreShowsYaml(b: Book)
    requires Inv(b) && b.store == map[]
    ensures b.visible == b.yaml
  {
  }

  lemma SeedDefaultsRefines(b: Book, e: Event, t: Table)
    requires Inv(b) && Possible(b, e) && Abstracts(b, t) && e.SeedDefaults?
    ensures Abstracts(Step(b, e), RowStep(t, e))
  {
    if BundledActs(b, e.defaults) {
      EmptyStoreShowsYaml(b);
      BundledLists(b.yaml, t.rows, e.defaults, e.minted);
      assert RowStep(t, e) == t.(rows := DeletedRows(t.rows, e.defaults.Keys) + BundledRows(e.defaults, e.minted), own := e.defaults.Keys);
    }
  }

  lemma SeedFetchedRefines(b: Book, e: Event, t: Table)
    requires Inv(b) && Possible(b, e) && Abstracts(b, t) && e.SeedFetched?
    ensures Abstracts(Step(b, e), RowStep(t, e))
  {
    SeedsRefine(b.yaml, b.store, b.used, t, if e.account then SeedCloud else SeedOfficial, e.drafts, e.uids);
  }

  lemma SavePodsRefines(b: Book, e: Event, t: Table)
    requires Inv(b) && Possible(b, e) && Abstracts(b, t) && e.SavePods?
    ensures Abstracts(Step(b, e), RowStep(t, e))
  {
    PodsRefine(b.yaml, b.store, b.used, t, e.drafts, e.uids);
    PodRowsFlags(t, e.drafts, e.uids);
  }

  /** The layered store with its tombstones and rebuilds refines the flat table, operation by
      operation. */
  lemma StoreRefinesTable(b: Book, e: Event, t: Table)
    requires Inv(b) && Possible(b, e) && Abstracts(b, t)
    ensures Abstracts(Step(b, e), RowStep(t, e))
  {
    match e
    case Create(_, _) => CreateRefines(b, e, t);
    case Import(_, _) => CreateRefines(b, e, t);
    case SavePods(_, _) => SavePodsRefines(b, e, t);
    case Edit(_, _, _) => EditRefines(b, e, t);
    case Delete(_, _) => DeleteRefines(b, e, t);
    case Export(_, _, _, _) => ExportRefines(b, e, t);
    case SeedDefaults(_, _) => SeedDefaultsRefines(b, e, t);
    case SeedFetched(_, _, _) => SeedFetchedRefines(b, e, t);
    case Rebuild =>
  }

  /** The event's lists fit together, as every possible event's do. */
  predicate Sized(e: Event) {
    && (e.SavePods? || e.SeedFetched? ==> |e.drafts| == |e.uids|)
    && (e.SeedDefaults? ==> e.minted.Keys == e.defaults.Keys && Injective(e.minted))
  }

  ghost function RunRows(t: Table, events: seq<Event>): Table
    decreases |events|
  {
    if events == [] then t
    else RunRows(if Sized(events[0]) then RowStep(t, events[0]) else t, events[1..])
  }

  /** And so over every history: what is visible is what the table says. */
  lemma {:induction false} RunRefinesTable(b: Book, events: seq<Event>, t: Table)
    requires Inv(b) && Legal(b, events) && Abstracts(b, t)
    ensures Abstracts(Run(b, events), RunRows(t, events))
    decreases |events|
  {
    if events != [] {
      StepKeeps(b, events[0]);
      StoreRefinesTable(b, events[0], t);
      RunRefinesTable(Step(b, events[0]), events[1..], RowStep(t, events[0]));
    }
  }
}
