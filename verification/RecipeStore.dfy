/** The layered recipe store of coordinator/recipes.py: YAML recipes overlaid by a mutable store
    with tombstones, and the identifier lookup of schema.py. Minted uids are fresh. */
module RecipeStore {
  import opened Basics
  import opened Names
  import Payload

  type Uid = string

  datatype Source = Yaml | Manual | Imported | Pod | SeedBundled | SeedCloud | SeedOfficial

  /** A stored recipe: identity, cloud metadata and the fields that are brewed. `shareId` is the
      normalized id of its share link. */
  datatype Recipe = Recipe(
    name: string, uid: Uid, tableId: Option<int>, shareId: Option<string>, source: Source, brew: Payload.Recipe)

  type View = map<string, Recipe>

  /** The store layer: `None` is a tombstone. */
  type Layer = map<string, Option<Recipe>>

  function Overlay(yaml: View, store: Layer): View {
    map n | n in yaml.Keys + store.Keys && (n in store ==> store[n].Some?)
      :: if n in store then store[n].value else yaml[n]
  }

  // ------------------------------------------------------------------
  // Lookup
  // ------------------------------------------------------------------

  /** What a caller may pass to find a recipe: the stripped text, read as an integer and as a
      share reference where it can be. */
  datatype Identifier = Identifier(text: string, tableId: Option<int>, shareId: Option<string>)

  predicate HasUid(r: Recipe, id: Identifier) { r.uid == id.text }

  predicate HasTable(r: Recipe, id: Identifier) { id.tableId.Some? && r.tableId == id.tableId }

  predicate HasShare(r: Recipe, id: Identifier) { id.shareId.Some? && r.shareId == id.shareId }

  predicate Nowhere(recipes: View, p: Recipe -> bool) {
    forall n :: n in recipes ==> !p(recipes[n])
  }

  /** `found` is a result find_recipe may return: uid first, then cloud table id, then share id,
      then name. Several recipes may carry the same cloud id; any of them may be the one. */
  predicate Finds(recipes: View, id: Identifier, found: Option<string>) {
    if id.text == "" || recipes == map[] then found == None
    else if !Nowhere(recipes, r => HasUid(r, id)) then found.Some? && found.value in recipes && HasUid(recipes[found.value], id)
    else if !Nowhere(recipes, r => HasTable(r, id)) then found.Some? && found.value in recipes && HasTable(recipes[found.value], id)
    else if !Nowhere(recipes, r => HasShare(r, id)) then found.Some? && found.value in recipes && HasShare(recipes[found.value], id)
    else if id.text in recipes then found == Some(id.text)
    else found == None
  }

  /** One search loop over the recipes, in whatever order they come. */
  method Scan(recipes: View, p: Recipe -> bool) returns (found: Option<string>)
    ensures found.Some? ==> found.value in recipes && p(recipes[found.value])
    ensures found.None? ==> Nowhere(recipes, p)
  {
    var rest := recipes.Keys;
    while rest != {}
      invariant rest <= recipes.Keys
      invariant forall n :: n in recipes.Keys - rest ==> !p(recipes[n])
      decreases |rest|
    {
      var n :| n in rest;
      if p(recipes[n]) {
        return Some(n);
      }
      rest := rest - {n};
    }
    return None;
  }

  /** find_recipe. */
  method FindRecipe(recipes: View, id: Identifier) returns (found: Option<string>)
    ensures Finds(recipes, id, found)
  {
    if id.text == "" || recipes == map[] {
      return None;
    }
    var byUid, byTable, byShare := r => HasUid(r, id), r => HasTable(r, id), r => HasShare(r, id);
    found := Scan(recipes, byUid);
    if found.Some? {
      return;
    }
    found := Scan(recipes, byTable);
    if found.Some? {
      return;
    }
    found := Scan(recipes, byShare);
    if found.Some? {
      return;
    }
    return if id.text in recipes then Some(id.text) else None;
  }

  // ------------------------------------------------------------------
  // Operations
  // ------------------------------------------------------------------

  /** A recipe that arrives from outside. `valid` is the verdict of the recipe schema; `link` is
      its share link as an identifier, if it has one. */
  datatype Draft = Draft(name: string, brew: Payload.Recipe, tableId: Option<int>, link: Option<Identifier>, valid: bool)

  /** What a caller asks to change, protected fields included; absent fields stay as they are. */
  datatype Changes = Changes(
    name: Option<string>, brew: Option<Payload.Recipe>, valid: bool,
    uid: Option<Uid>, tableId: Option<int>, shareId: Option<string>, source: Option<Source>)

  /** strip_protected_recipe_fields. */
  function Stripped(c: Changes): Changes {
    c.(uid := None, tableId := None, shareId := None, source := None)
  }

  function Either<T>(o: Option<T>, otherwise: T): T { if o.Some? then o.value else otherwise }

  /** The dictionary merge: what the changes carry wins. */
  function Merged(r: Recipe, c: Changes): Recipe {
    Recipe(Either(c.name, r.name), Either(c.uid, r.uid), if c.tableId.Some? then c.tableId else r.tableId,
           if c.shareId.Some? then c.shareId else r.shareId, Either(c.source, r.source), Either(c.brew, r.brew))
  }

  function Edited(r: Recipe, c: Changes): Recipe { Merged(r, Stripped(c)) }

  /** Whatever the changes claim, identity and cloud fields are the recipe's own, and name and
      content are what was asked for. */
  lemma EditKeepsIdentity(r: Recipe, c: Changes)
    ensures var e := Edited(r, c);
            && e.uid == r.uid && e.tableId == r.tableId && e.shareId == r.shareId && e.source == r.source
            && (c.name.Some? ==> e.name == c.name.value) && (c.brew.Some? ==> e.brew == c.brew.value)
  {
  }

  /** It is the stripping that does it: merged as they come, changes take over any identity. */
  lemma UnstrippedEditTakesIdentity(r: Recipe, other: Recipe, c: Changes)
    ensures Merged(r, c.(uid := Some(other.uid))).uid == other.uid
    ensures Edited(r, c.(uid := Some(other.uid))).uid == r.uid
  {
  }

  function ShareIdOf(d: Draft): Option<string> {
    if d.link.Some? then d.link.value.shareId else None
  }

  /** Everything the operations read and write. `used` holds every uid there ever was. */
  datatype Book = Book(
    yaml: View, store: Layer, visible: View, selected: Option<string>, seeded: bool, accountSeeded: bool, used: set<Uid>)

  datatype Event =
    | Create(draft: Draft, uid: Uid)
    | Import(draft: Draft, uid: Uid)
    | SavePods(drafts: seq<Draft>, uids: seq<Uid>)
    | Edit(id: Identifier, found: Option<string>, changes: Changes)
    | Delete(id: Identifier, found: Option<string>)
    | Export(id: Identifier, found: Option<string>, newTable: int, newShare: Option<string>)
    | SeedDefaults(defaults: map<string, Payload.Recipe>, minted: map<string, Uid>)
    | SeedFetched(account: bool, drafts: seq<Draft>, uids: seq<Uid>)
    | Rebuild

  /** The uids an event mints. */
  function Minted(e: Event): set<Uid> {
    match e
    case Create(_, uid) => {uid}
    case Import(_, uid) => {uid}
    case SavePods(_, uids) => Set(uids)
    case SeedFetched(_, _, uids) => Set(uids)
    case SeedDefaults(_, minted) => minted.Values
    case _ => {}
  }

  predicate Distinct(uids: seq<Uid>) {
    forall i, j :: 0 <= i < j < |uids| ==> uids[i] != uids[j]
  }

  /** Minted uids are fresh, and a lookup returned something find_recipe may return. */
  predicate Possible(b: Book, e: Event) {
    && Minted(e) !! b.used
    && match e
       case SavePods(drafts, uids) => |drafts| == |uids| && Distinct(uids)
       case SeedFetched(_, drafts, uids) => |drafts| == |uids| && Distinct(uids)
       case SeedDefaults(defaults, minted) => minted.Keys == defaults.Keys && Injective(minted)
       case Edit(id, found, _) => Finds(b.visible, id, found)
       case Delete(id, found) => Finds(b.visible, id, found)
       case Export(id, found, _, _) => Finds(b.visible, id, found)
       case _ => true
  }

  predicate Injective(minted: map<string, Uid>) {
    forall m, n :: m in minted && n in minted && minted[m] == minted[n] ==> m == n
  }

  function Put(store: Layer, r: Recipe): Layer { store[r.name := Some(r)] }

  /** Takes a name out of the store; a YAML name leaves a tombstone. */
  function Drop(yaml: View, store: Layer, name: string): Layer {
    if name in yaml then store[name := None] else store - {name}
  }

  ghost function Named(d: Draft, visible: View, uid: Uid, source: Source): Recipe {
    Recipe(Deduped(d.name, visible.Keys), uid, d.tableId, ShareIdOf(d), source, d.brew)
  }

  /** A pod recipe already saved: by its link, or by name among earlier pod saves. */
  predicate AlreadySaved(visible: View, d: Draft) {
    if d.link.Some? then !Finds(visible, d.link.value, None)
    else exists n :: n in visible && visible[n].source == Pod && n == d.name
  }

  ghost function PodsSaved(yaml: View, store: Layer, drafts: seq<Draft>, uids: seq<Uid>): Layer
    requires |drafts| == |uids|
    decreases |drafts|
  {
    if drafts == [] then store
    else
      var visible := Overlay(yaml, store);
      var next := if AlreadySaved(visible, drafts[0]) || !drafts[0].valid then store
                  else Put(store, Named(drafts[0], visible, uids[0], Pod));
      PodsSaved(yaml, next, drafts[1..], uids[1..])
  }

  function Seeded(yaml: View, store: Layer, source: Source, drafts: seq<Draft>, uids: seq<Uid>): Layer
    requires |drafts| == |uids|
    decreases |drafts|
  {
    if drafts == [] then store
    else
      var d := drafts[0];
      var next := if !d.valid || d.name in store || d.name in yaml then store
                  else Put(store, Recipe(d.name, uids[0], d.tableId, ShareIdOf(d), source, d.brew));
      Seeded(yaml, next, source, drafts[1..], uids[1..])
  }

  function Bundled(defaults: map<string, Payload.Recipe>, minted: map<string, Uid>): Layer
    requires minted.Keys == defaults.Keys
  {
    map n | n in defaults :: Some(Recipe(n, minted[n], None, None, SeedBundled, defaults[n]))
  }

  /** An edit goes through unless the schema refuses it or its new name is another recipe's. */
  predicate EditAccepted(visible: View, found: Option<string>, c: Changes) {
    && found.Some? && found.value in visible && c.valid
    && (Edited(visible[found.value], c).name == found.value || Edited(visible[found.value], c).name !in visible)
  }

  function EditedStore(yaml: View, store: Layer, from: string, r: Recipe): Layer {
    Put(if r.name != from then Drop(yaml, store, from) else store, r)
  }

  function Exported(r: Recipe, table: int, share: Option<string>): Recipe {
    r.(tableId := Some(table), shareId := if share.Some? then share else r.shareId)
  }

  predicate BundledActs(b: Book, defaults: map<string, Payload.Recipe>) {
    b.store == map[] && !b.seeded && defaults != map[]
  }

  /** The store an event leaves. */
  ghost function StoreAfter(b: Book, e: Event): Layer
    requires Possible(b, e)
  {
    match e
    case Create(d, uid) =>
      if d.valid then Put(b.store, Named(d.(tableId := None, link := None), b.visible, uid, Manual)) else b.store
    case Import(d, uid) =>
      if d.valid then Put(b.store, Named(d, b.visible, uid, Imported)) else b.store
    case SavePods(drafts, uids) => PodsSaved(b.yaml, b.store, drafts, uids)
    case Edit(_, found, c) =>
      if EditAccepted(b.visible, found, c)
      then EditedStore(b.yaml, b.store, found.value, Edited(b.visible[found.value], c)) else b.store
    case Delete(_, found) =>
      if found.Some? then Drop(b.yaml, b.store, found.value) else b.store
    case Export(_, found, table, share) =>
      if found.Some? && found.value in b.visible
      then Put(b.store, Exported(b.visible[found.value], table, share)) else b.store
    case SeedDefaults(defaults, minted) =>
      if BundledActs(b, defaults) then Bundled(defaults, minted) else b.store
    case SeedFetched(account, drafts, uids) =>
      if AlreadySeeded(b, account) then b.store
      else Seeded(b.yaml, b.store, if account then SeedCloud else SeedOfficial, drafts, uids)
    case Rebuild => b.store
  }

  predicate AlreadySeeded(b: Book, account: bool) { if account then b.accountSeeded else b.seeded }

  function SelectedAfter(b: Book, e: Event): Option<string> {
    if e.Edit? && EditAccepted(b.visible, e.found, e.changes) && b.selected == e.found
    then Some(Edited(b.visible[e.found.value], e.changes).name)
    else if e.Delete? && e.found.Some? && b.selected == e.found then None
    else b.selected
  }

  ghost function Step(b: Book, e: Event): Book
    requires Possible(b, e)
  {
    var store := StoreAfter(b, e);
    b.(store := store, visible := Overlay(b.yaml, store), selected := SelectedAfter(b, e),
       seeded := b.seeded || (e.SeedFetched? && !AlreadySeeded(b, e.account)),
       accountSeeded := b.accountSeeded || (e.SeedFetched? && e.account),
       used := b.used + Minted(e))
  }

  ghost predicate Legal(b: Book, events: seq<Event>)
    decreases |events|
  {
    events != [] ==> Possible(b, events[0]) && Legal(Step(b, events[0]), events[1..])
  }

  ghost function Run(b: Book, events: seq<Event>): Book
    requires Legal(b, events)
    decreases |events|
  {
    if events == [] then b else Run(Step(b, events[0]), events[1..])
  }

  // ------------------------------------------------------------------
  // What every operation keeps
  // ------------------------------------------------------------------

  ghost predicate DistinctUids(v: View) {
    forall m, n :: m in v && n in v && v[m].uid == v[n].uid ==> m == n
  }

  ghost predicate NamedByKey(v: View) {
    forall n :: n in v ==> v[n].name == n
  }

  /** The recipes of the store layer. */
  function Live(store: Layer): View {
    map n | n in store && store[n].Some? :: store[n].value
  }

  ghost predicate Carries(v: View, uid: Uid) {
    exists n :: n in v && v[n].uid == uid
  }

  /** Every YAML recipe that carries the uid is covered by the store. */
  ghost predicate Covered(yaml: View, keys: set<string>, uid: Uid) {
    forall m :: m in yaml && yaml[m].uid == uid ==> m in keys
  }

  /** A uid no visible recipe has or can come to have by a rebuild. */
  ghost predicate Unseen(yaml: View, store: Layer, uid: Uid) {
    !Carries(Live(store), uid) && Covered(yaml, store.Keys, uid)
  }

  /** Recipes stand under their names, identities are distinct within each layer, and a stored
      recipe that took its identity from YAML covers the original. */
  ghost predicate Layered(yaml: View, store: Layer) {
    && NamedByKey(yaml) && DistinctUids(yaml)
    && NamedByKey(Live(store)) && DistinctUids(Live(store))
    && AllCovered(yaml, Live(store), store.Keys)
  }

  ghost predicate AllCovered(yaml: View, live: View, keys: set<string>) {
    forall n :: n in live ==> Covered(yaml, keys, live[n].uid)
  }

  ghost predicate AllUsed(yaml: View, store: Layer, used: set<Uid>) {
    && (forall n :: n in yaml ==> yaml[n].uid in used)
    && (forall n :: n in Live(store) ==> Live(store)[n].uid in used)
  }

  ghost predicate Inv(b: Book) {
    && b.visible == Overlay(b.yaml, b.store)
    && Layered(b.yaml, b.store)
    && AllUsed(b.yaml, b.store, b.used)
  }

  lemma OverlayParts(yaml: View, store: Layer, n: string)
    ensures n in Overlay(yaml, store) <==> n in Live(store) || (n in yaml && n !in store)
    ensures n in Live(store) ==> n in store && Overlay(yaml, store)[n] == Live(store)[n]
    ensures n in yaml && n !in store ==> Overlay(yaml, store)[n] == yaml[n]
  {
  }

  lemma OverlayDistinct(yaml: View, store: Layer)
    requires Layered(yaml, store)
    ensures NamedByKey(Overlay(yaml, store)) && DistinctUids(Overlay(yaml, store))
  {
    var v := Overlay(yaml, store);
    forall m, n | m in v && n in v && v[m].uid == v[n].uid
      ensures m == n
    {
      OverlayParts(yaml, store, m);
      OverlayParts(yaml, store, n);
    }
    forall n | n in v
      ensures v[n].name == n
    {
      OverlayParts(yaml, store, n);
    }
  }

  lemma DistinctPut(v: View, r: Recipe)
    requires NamedByKey(v) && DistinctUids(v) && !Carries(v - {r.name}, r.uid)
    ensures NamedByKey(v[r.name := r]) && DistinctUids(v[r.name := r])
  {
    forall n | n in v && n != r.name
      ensures v[n].uid != r.uid
    {
      assert n in v - {r.name};
    }
  }

  lemma PutViews(yaml: View, store: Layer, r: Recipe)
    ensures Live(Put(store, r)) == Live(store)[r.name := r]
    ensures Overlay(yaml, Put(store, r)) == Overlay(yaml, store)[r.name := r]
  {
  }

  lemma DropViews(yaml: View, store: Layer, n: string)
    ensures Live(Drop(yaml, store, n)) == Live(store) - {n}
    ensures Overlay(yaml, Drop(yaml, store, n)) == Overlay(yaml, store) - {n}
  {
  }

  lemma CoveredAfterPut(yaml: View, live: View, keys: set<string>, r: Recipe)
    requires AllCovered(yaml, live, keys) && Covered(yaml, keys + {r.name}, r.uid)
    ensures AllCovered(yaml, live[r.name := r], keys + {r.name})
  {
    forall n | n in live
      ensures Covered(yaml, keys + {r.name}, live[n].uid)
    {
      assert Covered(yaml, keys, live[n].uid);
    }
  }

  /** Writing a recipe whose uid no other stored recipe has and whose YAML original is covered. */
  lemma PutLayered(yaml: View, store: Layer, r: Recipe)
    requires Layered(yaml, store) && !Carries(Live(store) - {r.name}, r.uid)
    requires Covered(yaml, store.Keys + {r.name}, r.uid)
    ensures Layered(yaml, Put(store, r))
    ensures Live(Put(store, r)) == Live(store)[r.name := r]
    ensures Overlay(yaml, Put(store, r)) == Overlay(yaml, store)[r.name := r]
  {
    PutViews(yaml, store, r);
    DistinctPut(Live(store), r);
    CoveredAfterPut(yaml, Live(store), store.Keys, r);
    assert Put(store, r).Keys == store.Keys + {r.name};
  }

  /** Writing a recipe under a name that is not visible. */
  lemma PutNew(yaml: View, store: Layer, r: Recipe)
    requires Layered(yaml, store) && Unseen(yaml, store, r.uid)
    ensures Layered(yaml, Put(store, r))
    ensures Live(Put(store, r)) == Live(store)[r.name := r]
    ensures Overlay(yaml, Put(store, r)) == Overlay(yaml, store)[r.name := r]
  {
    assert !Carries(Live(store) - {r.name}, r.uid);
    assert Covered(yaml, store.Keys + {r.name}, r.uid);
    PutLayered(yaml, store, r);
  }

  /** Writing over a visible recipe, identity kept. */
  lemma PutOver(yaml: View, store: Layer, r: Recipe)
    requires Layered(yaml, store) && r.name in Overlay(yaml, store) && r.uid == Overlay(yaml, store)[r.name].uid
    ensures Layered(yaml, Put(store, r))
    ensures Live(Put(store, r)) == Live(store)[r.name := r]
    ensures Overlay(yaml, Put(store, r)) == Overlay(yaml, store)[r.name := r]
  {
    var live := Live(store);
    OnlyCarrier(yaml, store, r.name);
    OverlayParts(yaml, store, r.name);
    assert Covered(yaml, store.Keys + {r.name}, r.uid) by {
      assert r.name in live ==> Covered(yaml, store.Keys, live[r.name].uid);
    }
    PutLayered(yaml, store, r);
  }

  /** Taking a visible name out. */
  lemma DropVisible(yaml: View, store: Layer, n: string)
    requires Layered(yaml, store) && n in Overlay(yaml, store)
    ensures Layered(yaml, Drop(yaml, store, n))
    ensures Live(Drop(yaml, store, n)) == Live(store) - {n}
    ensures Overlay(yaml, Drop(yaml, store, n)) == Overlay(yaml, store) - {n}
    ensures Unseen(yaml, Drop(yaml, store, n), Overlay(yaml, store)[n].uid)
  {
    DropViews(yaml, store, n);
    OnlyCarrier(yaml, store, n);
    CoveredAfterDrop(yaml, store, n);
  }

  lemma OnlyCarrier(yaml: View, store: Layer, n: string)
    requires Layered(yaml, store) && n in Overlay(yaml, store)
    ensures !Carries(Live(store) - {n}, Overlay(yaml, store)[n].uid)
  {
    var live, uid := Live(store), Overlay(yaml, store)[n].uid;
    OverlayDistinct(yaml, store);
    forall m | m in live - {n}
      ensures live[m].uid != uid
    {
      OverlayParts(yaml, store, m);
    }
  }

  lemma CoveredAfterDrop(yaml: View, store: Layer, n: string)
    requires Layered(yaml, store) && n in Overlay(yaml, store)
    ensures AllCovered(yaml, Live(store) - {n}, Drop(yaml, store, n).Keys)
    ensures Covered(yaml, Drop(yaml, store, n).Keys, Overlay(yaml, store)[n].uid)
  {
    var live, after := Live(store), Drop(yaml, store, n);
    OverlayParts(yaml, store, n);
    assert n in live ==> Covered(yaml, store.Keys, live[n].uid);
    assert forall m :: m in yaml && m in store.Keys + {n} ==> m in after;
    forall m | m in live - {n}
      ensures Covered(yaml, after.Keys, live[m].uid)
    {
      assert Covered(yaml, store.Keys, live[m].uid);
    }
  }

  lemma FreshUnseen(yaml: View, store: Layer, used: set<Uid>, uid: Uid)
    requires AllUsed(yaml, store, used) && uid !in used
    ensures Unseen(yaml, store, uid)
  {
  }

  // ------------------------------------------------------------------
  // Every operation keeps the layers in order and other recipes unchanged
  // ------------------------------------------------------------------

  /** Recipes whose uid is not in `touched` stand where they stood, unchanged. */
  ghost predicate Kept(before: View, after: View, touched: set<Uid>) {
    forall n :: n in before && before[n].uid !in touched ==> n in after && after[n] == before[n]
  }

  /** A uid that had gone stays gone unless it is minted now. */
  ghost predicate NoReturn(yaml: View, before: Layer, after: Layer, minted: set<Uid>) {
    forall u :: Unseen(yaml, before, u) && u !in minted ==> Unseen(yaml, after, u)
  }

  /** What every change of the store does. */
  ghost predicate Change(yaml: View, before: Layer, after: Layer, used: set<Uid>, minted: set<Uid>, touched: set<Uid>) {
    && Layered(yaml, after) && AllUsed(yaml, after, used + minted)
    && Kept(Overlay(yaml, before), Overlay(yaml, after), touched)
    && NoReturn(yaml, before, after, minted)
  }

  /** The recipes an event is addressed to, or shadows. */
  ghost function Touched(b: Book, e: Event): set<Uid> {
    match e
    case Edit(_, found, _) => Addressed(b.visible, found)
    case Delete(_, found) => Addressed(b.visible, found)
    case Export(_, found, _, _) => Addressed(b.visible, found)
    case SeedDefaults(defaults, _) =>
      if BundledActs(b, defaults) then set n | n in b.yaml && n in defaults :: b.yaml[n].uid else {}
    case _ => {}
  }

  function Addressed(visible: View, found: Option<string>): set<Uid> {
    if found.Some? && found.value in visible then {visible[found.value].uid} else {}
  }

  lemma UnseenAfterPut(yaml: View, store: Layer, r: Recipe, u: Uid)
    requires Unseen(yaml, store, u) && u != r.uid
    ensures Unseen(yaml, Put(store, r), u)
  {
    PutViews(yaml, store, r);
    assert forall n :: n in Live(store)[r.name := r] ==> n == r.name || n in Live(store);
  }

  lemma UnseenAfterDrop(yaml: View, store: Layer, n: string, u: Uid)
    requires Unseen(yaml, store, u)
    ensures Unseen(yaml, Drop(yaml, store, n), u)
  {
    DropViews(yaml, store, n);
    assert forall m :: m in Live(store) - {n} ==> m in Live(store);
  }

  lemma VisibleIsSeen(yaml: View, store: Layer, n: string)
    requires n in Overlay(yaml, store)
    ensures !Unseen(yaml, store, Overlay(yaml, store)[n].uid)
  {
    OverlayParts(yaml, store, n);
    assert n in Live(store) ==> Carries(Live(store), Live(store)[n].uid);
  }

  lemma PutFresh(yaml: View, store: Layer, used: set<Uid>, r: Recipe)
    requires Layered(yaml, store) && AllUsed(yaml, store, used)
    requires r.uid !in used && r.name !in Overlay(yaml, store)
    ensures Change(yaml, store, Put(store, r), used, {r.uid}, {})
  {
    FreshUnseen(yaml, store, used, r.uid);
    PutNew(yaml, store, r);
    forall u | Unseen(yaml, store, u) && u !in {r.uid}
      ensures Unseen(yaml, Put(store, r), u)
    {
      UnseenAfterPut(yaml, store, r, u);
    }
  }

  lemma NoChange(yaml: View, store: Layer, used: set<Uid>, minted: set<Uid>)
    requires Layered(yaml, store) && AllUsed(yaml, store, used)
    ensures Change(yaml, store, store, used, minted, {})
  {
  }

  /** Two additions in a row. */
  lemma Compose(yaml: View, s0: Layer, s1: Layer, s2: Layer, used: set<Uid>, m1: set<Uid>, m2: set<Uid>)
    requires Change(yaml, s0, s1, used, m1, {}) && Change(yaml, s1, s2, used + m1, m2, {})
    ensures Change(yaml, s0, s2, used, m1 + m2, {})
  {
    assert used + m1 + m2 == used + (m1 + m2);
  }

  function Set(uids: seq<Uid>): set<Uid> { set u | u in uids }

  lemma SetSplit(uids: seq<Uid>)
    requires uids != [] && Distinct(uids)
    ensures Set(uids) == {uids[0]} + Set(uids[1..])
    ensures Distinct(uids[1..]) && uids[0] !in Set(uids[1..])
  {
    forall u | u in Set(uids)
      ensures u in {uids[0]} + Set(uids[1..])
    {
      var i :| 0 <= i < |uids| && uids[i] == u;
      assert i > 0 ==> uids[1..][i - 1] == u;
    }
  }

  lemma {:induction false} PodsChange(yaml: View, store: Layer, used: set<Uid>, drafts: seq<Draft>, uids: seq<Uid>)
    requires Layered(yaml, store) && AllUsed(yaml, store, used)
    requires |drafts| == |uids| && Distinct(uids) && Set(uids) !! used
    ensures Change(yaml, store, PodsSaved(yaml, store, drafts, uids), used, Set(uids), {})
    decreases |drafts|
  {
    if drafts == [] {
      NoChange(yaml, store, used, Set(uids));
    } else {
      SetSplit(uids);
      var visible := Overlay(yaml, store);
      var r := Named(drafts[0], visible, uids[0], Pod);
      var saved := !(AlreadySaved(visible, drafts[0]) || !drafts[0].valid);
      var next := if saved then Put(store, r) else store;
      if saved {
        PutFresh(yaml, store, used, r);
      } else {
        NoChange(yaml, store, used, {uids[0]});
      }
      PodsChange(yaml, next, used + {uids[0]}, drafts[1..], uids[1..]);
      Compose(yaml, store, next, PodsSaved(yaml, next, drafts[1..], uids[1..]), used, {uids[0]}, Set(uids[1..]));
    }
  }

  lemma {:induction false} SeedChange(yaml: View, store: Layer, used: set<Uid>, source: Source, drafts: seq<Draft>, uids: seq<Uid>)
    requires Layered(yaml, store) && AllUsed(yaml, store, used)
    requires |drafts| == |uids| && Distinct(uids) && Set(uids) !! used
    ensures Change(yaml, store, Seeded(yaml, store, source, drafts, uids), used, Set(uids), {})
    decreases |drafts|
  {
    if drafts == [] {
      NoChange(yaml, store, used, Set(uids));
    } else {
      SetSplit(uids);
      var d := drafts[0];
      var r := Recipe(d.name, uids[0], d.tableId, ShareIdOf(d), source, d.brew);
      var saved := !(!d.valid || d.name in store || d.name in yaml);
      var next := if saved then Put(store, r) else store;
      if saved {
        PutFresh(yaml, store, used, r);
      } else {
        NoChange(yaml, store, used, {uids[0]});
      }
      SeedChange(yaml, next, used + {uids[0]}, source, drafts[1..], uids[1..]);
      Compose(yaml, store, next, Seeded(yaml, next, source, drafts[1..], uids[1..]), used, {uids[0]}, Set(uids[1..]));
    }
  }

  lemma PutOverChange(yaml: View, store: Layer, used: set<Uid>, r: Recipe)
    requires Layered(yaml, store) && AllUsed(yaml, store, used)
    requires r.name in Overlay(yaml, store) && r.uid == Overlay(yaml, store)[r.name].uid
    ensures Change(yaml, store, Put(store, r), used, {}, {r.uid})
  {
    PutOver(yaml, store, r);
    VisibleIsSeen(yaml, store, r.name);
    OverlayParts(yaml, store, r.name);
    forall u | Unseen(yaml, store, u)
      ensures Unseen(yaml, Put(store, r), u)
    {
      UnseenAfterPut(yaml, store, r, u);
    }
  }

  lemma DropChange(yaml: View, store: Layer, used: set<Uid>, n: string)
    requires Layered(yaml, store) && AllUsed(yaml, store, used) && n in Overlay(yaml, store)
    ensures Change(yaml, store, Drop(yaml, store, n), used, {}, {Overlay(yaml, store)[n].uid})
  {
    DropVisible(yaml, store, n);
    forall u | Unseen(yaml, store, u)
      ensures Unseen(yaml, Drop(yaml, store, n), u)
    {
      UnseenAfterDrop(yaml, store, n, u);
    }
  }

  /** A rename moves a recipe from one name to a free one. */
  lemma RenameChange(yaml: View, store: Layer, used: set<Uid>, n: string, r: Recipe)
    requires Layered(yaml, store) && AllUsed(yaml, store, used)
    requires n in Overlay(yaml, store) && r.uid == Overlay(yaml, store)[n].uid && r.name !in Overlay(yaml, store)
    ensures Change(yaml, store, Put(Drop(yaml, store, n), r), used, {}, {r.uid})
    ensures Overlay(yaml, Put(Drop(yaml, store, n), r)) == (Overlay(yaml, store) - {n})[r.name := r]
  {
    var dropped := Drop(yaml, store, n);
    DropChange(yaml, store, used, n);
    DropVisible(yaml, store, n);
    PutNew(yaml, dropped, r);
    VisibleIsSeen(yaml, store, n);
    OverlayParts(yaml, store, n);
    forall u | Unseen(yaml, store, u)
      ensures Unseen(yaml, Put(dropped, r), u)
    {
      UnseenAfterPut(yaml, dropped, r, u);
    }
  }

  lemma BundledChange(yaml: View, used: set<Uid>, defaults: map<string, Payload.Recipe>, minted: map<string, Uid>)
    requires NamedByKey(yaml) && DistinctUids(yaml) && AllUsed(yaml, map[], used)
    requires minted.Keys == defaults.Keys && Injective(minted) && minted.Values !! used
    ensures Change(yaml, map[], Bundled(defaults, minted), used, minted.Values,
                   set n | n in yaml && n in defaults :: yaml[n].uid)
  {
    var store := Bundled(defaults, minted);
    var live := Live(store);
    assert live.Keys == defaults.Keys;
    forall n | n in live
      ensures live[n].uid == minted[n] && minted[n] in minted.Values && Covered(yaml, store.Keys, live[n].uid)
    {
    }
    var shadowed := set n | n in yaml && n in defaults :: yaml[n].uid;
    forall n | n in Overlay(yaml, map[]) && Overlay(yaml, map[])[n].uid !in shadowed
      ensures n in Overlay(yaml, store) && Overlay(yaml, store)[n] == Overlay(yaml, map[])[n]
    {
      assert n in yaml && n !in defaults;
    }
  }

  /** Every operation keeps the invariant, leaves every recipe it is not addressed to where and as
      it was, and brings no uid back. */
  lemma StepKeeps(b: Book, e: Event)
    requires Inv(b) && Possible(b, e)
    ensures Inv(Step(b, e))
    ensures Kept(b.visible, Step(b, e).visible, Touched(b, e))
    ensures NoReturn(b.yaml, b.store, Step(b, e).store, Minted(e))
  {
    var yaml, store, used := b.yaml, b.store, b.used;
    NoChange(yaml, store, used, Minted(e));
    match e {
      case Create(d, uid) =>
        if d.valid {
          PutFresh(yaml, store, used, Named(d.(tableId := None, link := None), b.visible, uid, Manual));
        }
      case Import(d, uid) =>
        if d.valid {
          PutFresh(yaml, store, used, Named(d, b.visible, uid, Imported));
        }
      case SavePods(drafts, uids) =>
        PodsChange(yaml, store, used, drafts, uids);
      case Edit(_, found, c) =>
        if EditAccepted(b.visible, found, c) {
          EditKeeps(b, found.value, Edited(b.visible[found.value], c));
        }
      case Delete(_, found) =>
        if found.Some? {
          DropChange(yaml, store, used, found.value);
        }
      case Export(_, found, table, share) =>
        if found.Some? {
          OverlayDistinct(yaml, store);
          PutOverChange(yaml, store, used, Exported(b.visible[found.value], table, share));
        }
      case SeedDefaults(defaults, minted) =>
        if BundledActs(b, defaults) {
          BundledChange(yaml, used, defaults, minted);
        }
      case SeedFetched(account, drafts, uids) =>
        if !AlreadySeeded(b, account) {
          SeedChange(yaml, store, used, if account then SeedCloud else SeedOfficial, drafts, uids);
        }
      case Rebuild =>
    }
  }

  lemma Overwrite(v: View, r: Recipe)
    ensures v[r.name := r] == (v - {r.name})[r.name := r]
  {
  }

  lemma EditKeeps(b: Book, n: string, r: Recipe)
    requires Inv(b) && n in b.visible && r.uid == b.visible[n].uid && (r.name == n || r.name !in b.visible)
    ensures Change(b.yaml, b.store, EditedStore(b.yaml, b.store, n, r), b.used, {}, {r.uid})
    ensures Overlay(b.yaml, EditedStore(b.yaml, b.store, n, r)) == (b.visible - {n})[r.name := r]
  {
    if r.name == n {
      PutOverChange(b.yaml, b.store, b.used, r);
      PutOver(b.yaml, b.store, r);
      Overwrite(b.visible, r);
    } else {
      RenameChange(b.yaml, b.store, b.used, n, r);
    }
  }

  // ------------------------------------------------------------------
  // Stable identity
  // ------------------------------------------------------------------

  /** The event takes the recipe with this uid out of view: its deletion, or bundled defaults
      written over an empty store under its YAML name. */
  ghost predicate Loses(b: Book, e: Event, u: Uid) {
    (e.Delete? || e.SeedDefaults?) && u in Touched(b, e)
  }

  /** What an event makes of a recipe it does not lose: the edits and exports addressed to its
      uid, nothing else. */
  function Evolved(b: Book, e: Event, r: Recipe): Recipe {
    if e.Edit? && r.uid in Addressed(b.visible, e.found) && EditAccepted(b.visible, e.found, e.changes) then Edited(r, e.changes)
    else if e.Export? && r.uid in Addressed(b.visible, e.found) then Exported(r, e.newTable, e.newShare)
    else r
  }

  ghost predicate Shows(b: Book, r: Recipe) { r.name in b.visible && b.visible[r.name] == r }

  lemma EditEvolves(b: Book, e: Event, r: Recipe)
    requires Inv(b) && Possible(b, e) && Shows(b, r) && e.Edit? && e.found == Some(r.name)
    ensures Shows(Step(b, e), Evolved(b, e, r))
  {
    if EditAccepted(b.visible, e.found, e.changes) {
      EditKeeps(b, r.name, Edited(r, e.changes));
    }
  }

  lemma ExportEvolves(b: Book, e: Event, r: Recipe)
    requires Inv(b) && Possible(b, e) && Shows(b, r) && e.Export? && e.found == Some(r.name)
    ensures Shows(Step(b, e), Evolved(b, e, r))
  {
    PutOver(b.yaml, b.store, Exported(r, e.newTable, e.newShare));
  }

  /** An event addressed to a uid found it under its name. */
  lemma AddressedByName(b: Book, found: Option<string>, r: Recipe)
    requires Inv(b) && Shows(b, r) && r.uid in Addressed(b.visible, found)
    ensures found == Some(r.name)
  {
    OverlayDistinct(b.yaml, b.store);
  }

  lemma StepEvolves(b: Book, e: Event, r: Recipe)
    requires Inv(b) && Possible(b, e) && Shows(b, r) && !Loses(b, e, r.uid)
    ensures Shows(Step(b, e), Evolved(b, e, r))
  {
    if r.uid !in Touched(b, e) {
      StepKeeps(b, e);
    } else if e.Edit? {
      AddressedByName(b, e.found, r);
      EditEvolves(b, e, r);
    } else {
      AddressedByName(b, e.found, r);
      ExportEvolves(b, e, r);
    }
  }

  ghost predicate NeverLoses(b: Book, events: seq<Event>, u: Uid)
    requires Legal(b, events)
    decreases |events|
  {
    events != [] ==> !Loses(b, events[0], u) && NeverLoses(Step(b, events[0]), events[1..], u)
  }

  ghost function History(b: Book, events: seq<Event>, r: Recipe): Recipe
    requires Legal(b, events)
    decreases |events|
  {
    if events == [] then r else History(Step(b, events[0]), events[1..], Evolved(b, events[0], r))
  }

  /** After any history the view is YAML overlaid by the store, every key is its recipe's name
      and no two visible recipes share a uid. */
  lemma {:induction false} RunKeeps(b: Book, events: seq<Event>)
    requires Inv(b) && Legal(b, events)
    ensures Inv(Run(b, events))
    ensures Run(b, events).visible == Overlay(b.yaml, Run(b, events).store)
    ensures NamedByKey(Run(b, events).visible) && DistinctUids(Run(b, events).visible)
    decreases |events|
  {
    if events == [] {
      OverlayDistinct(b.yaml, b.store);
    } else {
      StepKeeps(b, events[0]);
      RunKeeps(Step(b, events[0]), events[1..]);
    }
  }

  /** No export is addressed to this uid. */
  ghost predicate NeverExports(b: Book, events: seq<Event>, u: Uid)
    requires Legal(b, events)
    decreases |events|
  {
    events != [] ==>
      && !(events[0].Export? && u in Addressed(b.visible, events[0].found))
      && NeverExports(Step(b, events[0]), events[1..], u)
  }

  lemma EvolvedKeepsIdentity(b: Book, e: Event, r: Recipe)
    ensures Evolved(b, e, r).uid == r.uid && Evolved(b, e, r).source == r.source
    ensures !(e.Export? && r.uid in Addressed(b.visible, e.found)) ==>
              Evolved(b, e, r).tableId == r.tableId && Evolved(b, e, r).shareId == r.shareId
  {
    if e.Edit? {
      EditKeepsIdentity(r, e.changes);
    }
  }

  /** A recipe that is not deleted is still there after any history, under the name and with the
      content that exactly the edits and exports addressed to it gave it. Uid and source stay its
      own whatever the edits carry, and so does the cloud identity unless it is exported. */
  lemma {:induction false} StableIdentity(b: Book, events: seq<Event>, r: Recipe)
    requires Inv(b) && Legal(b, events) && Shows(b, r) && NeverLoses(b, events, r.uid)
    ensures Shows(Run(b, events), History(b, events, r))
    ensures History(b, events, r).uid == r.uid && History(b, events, r).source == r.source
    ensures NeverExports(b, events, r.uid) ==>
              History(b, events, r).tableId == r.tableId && History(b, events, r).shareId == r.shareId
    decreases |events|
  {
    if events != [] {
      StepKeeps(b, events[0]);
      StepEvolves(b, events[0], r);
      EvolvedKeepsIdentity(b, events[0], r);
      StableIdentity(Step(b, events[0]), events[1..], Evolved(b, events[0], r));
    }
  }

  // ------------------------------------------------------------------
  // Field by field
  // ------------------------------------------------------------------

  /** The edit goes through: its target is found, the schema takes it, and a new name is free. */
  ghost predicate GoesThrough(visible: View, found: Option<string>, c: Changes) {
    && found.Some? && found.value in visible && c.valid
    && (c.name.None? || c.name == found || c.name.value !in visible)
  }

  /** What a recipe has after an edit: every field given, and the old one wherever the caller gives
      none or may give none. */
  ghost predicate EditedFrom(before: Recipe, c: Changes, edited: Recipe) {
    && (c.name.Some? ==> edited.name == c.name.value) && (c.name.None? ==> edited.name == before.name)
    && (c.brew.Some? ==> edited.brew == c.brew.value) && (c.brew.None? ==> edited.brew == before.brew)
    && edited.uid == before.uid && edited.tableId == before.tableId && edited.shareId == before.shareId && edited.source == before.source
  }

  lemma EditedFields(before: Recipe, c: Changes)
    ensures EditedFrom(before, c, Edited(before, c))
  {
  }

  lemma AcceptedIff(b: Book, found: Option<string>, c: Changes)
    requires Inv(b)
    ensures EditAccepted(b.visible, found, c) <==> GoesThrough(b.visible, found, c)
  {
    OverlayDistinct(b.yaml, b.store);
    if found.Some? && found.value in b.visible {
      EditedFields(b.visible[found.value], c);
    }
  }

  lemma EditedView(b: Book, e: Event)
    requires Inv(b) && Possible(b, e) && e.Edit?
    ensures var after := Step(b, e).visible;
            if !GoesThrough(b.visible, e.found, e.changes) then after == b.visible
            else
              var n := e.found.value;
              var r := Edited(b.visible[n], e.changes);
              after == (b.visible - {n})[r.name := r] && EditedFrom(b.visible[n], e.changes, r)
  {
    AcceptedIff(b, e.found, e.changes);
    if GoesThrough(b.visible, e.found, e.changes) {
      var n := e.found.value;
      EditedFields(b.visible[n], e.changes);
      EditKeeps(b, n, Edited(b.visible[n], e.changes));
    }
  }

  /** An edit changes the fields it gives of the recipe it finds, and nothing else anywhere; one
      that does not go through changes nothing. */
  lemma EditChangesWhatItGives(b: Book, e: Event)
    requires Inv(b) && Possible(b, e) && e.Edit?
    ensures var after := Step(b, e).visible;
            if !GoesThrough(b.visible, e.found, e.changes) then after == b.visible
            else
              var n := e.found.value;
              var m := if e.changes.name.Some? then e.changes.name.value else n;
              && after.Keys == b.visible.Keys - {n} + {m}
              && EditedFrom(b.visible[n], e.changes, after[m])
              && forall k :: k in after && k != m ==> k in b.visible && after[k] == b.visible[k]
  {
    OverlayDistinct(b.yaml, b.store);
    EditedView(b, e);
  }

  /** An export gives the recipe it finds the cloud's table id and the share id if there is one, and
      changes nothing else. */
  lemma ExportAddsTheCloudIdentity(b: Book, e: Event)
    requires Inv(b) && Possible(b, e) && e.Export?
    ensures var after := Step(b, e).visible;
            && (e.found.None? ==> after == b.visible)
            && (e.found.Some? ==>
                  var n := e.found.value;
                  && n in b.visible && after.Keys == b.visible.Keys
                  && after[n].name == n && after[n].uid == b.visible[n].uid && after[n].source == b.visible[n].source
                  && after[n].brew == b.visible[n].brew && after[n].tableId == Some(e.newTable)
                  && (e.newShare.Some? ==> after[n].shareId == e.newShare)
                  && (e.newShare.None? ==> after[n].shareId == b.visible[n].shareId)
                  && forall k :: k in after && k != n ==> after[k] == b.visible[k])
  {
    OverlayDistinct(b.yaml, b.store);
    if e.found.Some? {
      PutOver(b.yaml, b.store, Exported(b.visible[e.found.value], e.newTable, e.newShare));
    }
  }

  /** The first free form of a name: itself, or with the least suffix from 2 on. */
  ghost predicate FirstFreeForm(name: string, taken: set<string>, n: string) {
    && n !in taken
    && (name !in taken ==> n == name)
    && (name in taken ==> exists k: nat :: n == Suffixed(name, k) && FirstFree(name, taken, 2, k))
  }

  /** The recipe made of a draft that came in with an event. */
  ghost predicate MadeOf(e: Event, n: string, r: Recipe)
    requires e.Create? || e.Import?
  {
    && r.name == n && r.uid == e.uid && r.brew == e.draft.brew
    && (e.Create? ==> r.source == Manual && r.tableId.None? && r.shareId.None?)
    && (e.Import? ==> r.source == Imported && r.tableId == e.draft.tableId)
    && (e.Import? && e.draft.link.Some? ==> r.shareId == e.draft.link.value.shareId)
    && (e.Import? && e.draft.link.None? ==> r.shareId.None?)
  }

  lemma NamedIsMade(e: Event, visible: View) returns (r: Recipe)
    requires e.Create? || e.Import?
    ensures r == if e.Create? then Named(e.draft.(tableId := None, link := None), visible, e.uid, Manual)
                 else Named(e.draft, visible, e.uid, Imported)
    ensures FirstFreeForm(e.draft.name, visible.Keys, r.name) && MadeOf(e, r.name, r)
  {
    r := if e.Create? then Named(e.draft.(tableId := None, link := None), visible, e.uid, Manual)
         else Named(e.draft, visible, e.uid, Imported);
  }

  /** A recipe that is created or imported is what came in, under the first free form of its name,
      with the minted uid. A created one has no cloud identity; an imported one has the table id
      and share id it came with. A refused draft adds nothing. */
  lemma NewRecipeIsTheDraft(b: Book, e: Event) returns (n: string)
    requires Inv(b) && Possible(b, e) && (e.Create? || e.Import?)
    ensures !e.draft.valid ==> Step(b, e).visible == b.visible
    ensures e.draft.valid ==>
              var after := Step(b, e).visible;
              && after.Keys == b.visible.Keys + {n} && FirstFreeForm(e.draft.name, b.visible.Keys, n)
              && MadeOf(e, n, after[n])
              && forall k :: k in b.visible ==> after[k] == b.visible[k]
  {
    var r := NamedIsMade(e, b.visible);
    n := r.name;
    if e.draft.valid {
      PutViews(b.yaml, b.store, r);
    }
  }

  /** The name, content, table id and share id that a history gives a uid. */
  datatype Fields = Fields(name: string, brew: Payload.Recipe, tableId: Option<int>, shareId: Option<string>)

  /** What one event gives: an edit that goes through what it carries, an export the cloud identity. */
  ghost function FieldsAfter(b: Book, e: Event, u: Uid, f: Fields): Fields {
    if e.Edit? && GoesThrough(b.visible, e.found, e.changes) && b.visible[e.found.value].uid == u then
      f.(name := if e.changes.name.Some? then e.changes.name.value else f.name,
         brew := if e.changes.brew.Some? then e.changes.brew.value else f.brew)
    else if e.Export? && e.found.Some? && e.found.value in b.visible && b.visible[e.found.value].uid == u then
      f.(tableId := Some(e.newTable), shareId := if e.newShare.Some? then e.newShare else f.shareId)
    else f
  }

  ghost function FieldsGiven(b: Book, events: seq<Event>, u: Uid, f: Fields): Fields
    requires Legal(b, events)
    decreases |events|
  {
    if events == [] then f else FieldsGiven(Step(b, events[0]), events[1..], u, FieldsAfter(b, events[0], u, f))
  }

  function FieldsOf(r: Recipe): Fields { Fields(r.name, r.brew, r.tableId, r.shareId) }

  lemma EvolvedFields(b: Book, e: Event, r: Recipe)
    requires Inv(b) && Possible(b, e)
    ensures FieldsOf(Evolved(b, e, r)) == FieldsAfter(b, e, r.uid, FieldsOf(r)) && Evolved(b, e, r).uid == r.uid
  {
    if e.Edit? {
      AcceptedIff(b, e.found, e.changes);
      EditedFields(r, e.changes);
    }
  }

  /** After any history that does not lose it, a recipe has the name and the content last given to
      its uid, by an edit that went through, and its own where none gave any; and the cloud
      identity last given to it by an export. */
  lemma {:induction false} FieldsAreTheLastGiven(b: Book, events: seq<Event>, r: Recipe)
    requires Inv(b) && Legal(b, events) && Shows(b, r) && NeverLoses(b, events, r.uid)
    ensures var after, f := Run(b, events).visible, FieldsGiven(b, events, r.uid, FieldsOf(r));
            && f.name in after && after[f.name].uid == r.uid && after[f.name].source == r.source
            && FieldsOf(after[f.name]) == f
    decreases |events|
  {
    if events != [] {
      StepKeeps(b, events[0]);
      StepEvolves(b, events[0], r);
      EvolvedFields(b, events[0], r);
      EvolvedKeepsIdentity(b, events[0], r);
      FieldsAreTheLastGiven(Step(b, events[0]), events[1..], Evolved(b, events[0], r));
    }
  }

  /** A lookup finds nothing exactly if nothing matches; what it finds matches by uid if any recipe
      does, else by table id if any does, else by share id if any does, else by name. */
  lemma LookupPriority(recipes: View, id: Identifier, found: Option<string>)
    requires Finds(recipes, id, found)
    ensures var uidMatch, tableMatch, shareMatch :=
              exists n :: n in recipes && recipes[n].uid == id.text,
              id.tableId.Some? && exists n :: n in recipes && recipes[n].tableId == Some(id.tableId.value),
              id.shareId.Some? && exists n :: n in recipes && recipes[n].shareId == Some(id.shareId.value);
            && (found.None? <==> id.text == "" || (!uidMatch && !tableMatch && !shareMatch && id.text !in recipes))
            && (found.Some? ==>
                  var n := found.value;
                  && n in recipes
                  && (uidMatch ==> recipes[n].uid == id.text)
                  && (!uidMatch && tableMatch ==> recipes[n].tableId == Some(id.tableId.value))
                  && (!uidMatch && !tableMatch && shareMatch ==> recipes[n].shareId == Some(id.shareId.value))
                  && (!uidMatch && !tableMatch && !shareMatch ==> n == id.text))
  {
    assert Nowhere(recipes, r => HasUid(r, id)) <==> !exists n :: n in recipes && recipes[n].uid == id.text;
    assert Nowhere(recipes, r => HasTable(r, id)) <==>
           !(id.tableId.Some? && exists n :: n in recipes && recipes[n].tableId == Some(id.tableId.value));
    assert Nowhere(recipes, r => HasShare(r, id)) <==>
           !(id.shareId.Some? && exists n :: n in recipes && recipes[n].shareId == Some(id.shareId.value));
  }

  /** A lookup by uid returns the recipe with that uid, whatever it is called by now. */
  lemma UidLookup(b: Book, r: Recipe, id: Identifier, found: Option<string>)
    requires Inv(b) && Shows(b, r) && id.text == r.uid != "" && Finds(b.visible, id, found)
    ensures found == Some(r.name)
  {
    OverlayDistinct(b.yaml, b.store);
    assert !Nowhere(b.visible, x => HasUid(x, id)) by {
      assert HasUid(b.visible[r.name], id);
    }
  }

  // ------------------------------------------------------------------
  // Deletion
  // ------------------------------------------------------------------

  /** A uid that has gone is not seen again by any history. */
  lemma {:induction false} GoneForGood(b: Book, events: seq<Event>, u: Uid)
    requires Inv(b) && Legal(b, events) && u in b.used && Unseen(b.yaml, b.store, u)
    ensures !Carries(Run(b, events).visible, u)
    decreases |events|
  {
    if events == [] {
      UnseenNotCarried(b.yaml, b.store, u);
    } else {
      StepKeeps(b, events[0]);
      GoneForGood(Step(b, events[0]), events[1..], u);
    }
  }

  /** A deleted recipe never comes back, YAML recipes included: rebuilds, seeds, exports and
      other users of the freed name all leave its uid out of view. */
  lemma DeletedForGood(b: Book, id: Identifier, found: Option<string>, events: seq<Event>)
    requires Inv(b) && Possible(b, Delete(id, found)) && found.Some?
    requires Legal(Step(b, Delete(id, found)), events)
    ensures !Carries(Run(Step(b, Delete(id, found)), events).visible, b.visible[found.value].uid)
  {
    DropVisible(b.yaml, b.store, found.value);
    OverlayParts(b.yaml, b.store, found.value);
    StepKeeps(b, Delete(id, found));
    GoneForGood(Step(b, Delete(id, found)), events, b.visible[found.value].uid);
  }

  ghost predicate Tombstone(b: Book, n: string) { n in b.store && b.store[n].None? }

  /** The event gives the name to a recipe: a create or import that ends up with it, an edit that
      renames to it, or a pod save. */
  ghost predicate Reuses(b: Book, e: Event, n: string)
    requires Possible(b, e)
  {
    match e
    case Create(d, _) => d.valid && Deduped(d.name, b.visible.Keys) == n
    case Import(d, _) => d.valid && Deduped(d.name, b.visible.Keys) == n
    case Edit(_, found, c) => EditAccepted(b.visible, found, c) && Edited(b.visible[found.value], c).name == n
    case SavePods(drafts, uids) => n in Overlay(b.yaml, PodsSaved(b.yaml, b.store, drafts, uids))
    case _ => false
  }

  lemma {:induction false} SeedSkipsTombstones(yaml: View, store: Layer, source: Source, drafts: seq<Draft>, uids: seq<Uid>, n: string)
    requires |drafts| == |uids| && n in store
    ensures n in Seeded(yaml, store, source, drafts, uids) && Seeded(yaml, store, source, drafts, uids)[n] == store[n]
    decreases |drafts|
  {
    if drafts != [] {
      var d := drafts[0];
      var next := if !d.valid || d.name in store || d.name in yaml then store
                  else Put(store, Recipe(d.name, uids[0], d.tableId, ShareIdOf(d), source, d.brew));
      SeedSkipsTombstones(yaml, next, source, drafts[1..], uids[1..], n);
    }
  }

  lemma {:induction false} PodsKeepKeys(yaml: View, store: Layer, drafts: seq<Draft>, uids: seq<Uid>, n: string)
    requires |drafts| == |uids| && n in store
    ensures n in PodsSaved(yaml, store, drafts, uids)
    decreases |drafts|
  {
    if drafts != [] {
      var visible := Overlay(yaml, store);
      var next := if AlreadySaved(visible, drafts[0]) || !drafts[0].valid then store
                  else Put(store, Named(drafts[0], visible, uids[0], Pod));
      PodsKeepKeys(yaml, next, drafts[1..], uids[1..], n);
    }
  }

  lemma DropKeepsTombstone(yaml: View, store: Layer, m: string, n: string)
    requires m in Overlay(yaml, store) && n in store && store[n].None?
    ensures var after := Drop(yaml, store, m);
            n in after && after[n].None?
  {
  }

  lemma PutKeepsTombstone(store: Layer, r: Recipe, n: string)
    requires n in store && store[n].None?
    ensures n in Put(store, r) && (Put(store, r)[n].None? <==> r.name != n)
  {
  }

  lemma EditKeepsTombstone(yaml: View, store: Layer, from: string, r: Recipe, n: string)
    requires from in Overlay(yaml, store) && n in store && store[n].None?
    ensures var after := EditedStore(yaml, store, from, r);
            n in after && (after[n].None? <==> r.name != n)
  {
    DropKeepsTombstone(yaml, store, from, n);
    PutKeepsTombstone(if r.name != from then Drop(yaml, store, from) else store, r, n);
  }

  lemma HiddenName(b: Book, n: string)
    requires Inv(b) && Tombstone(b, n)
    ensures n !in b.visible
  {
  }

  /** A tombstone outlives every event but one that takes the name. */
  lemma TombstoneHolds(b: Book, e: Event, n: string)
    requires Inv(b) && Possible(b, e) && Tombstone(b, n)
    ensures n !in b.visible
    ensures Tombstone(Step(b, e), n) <==> !Reuses(b, e, n)
  {
    HiddenName(b, n);
    match e {
      case Create(d, uid) => PutKeepsTombstone(b.store, Named(d.(tableId := None, link := None), b.visible, uid, Manual), n);
      case Import(d, uid) => PutKeepsTombstone(b.store, Named(d, b.visible, uid, Imported), n);
      case SeedFetched(account, drafts, uids) =>
        SeedSkipsTombstones(b.yaml, b.store, if account then SeedCloud else SeedOfficial, drafts, uids, n);
      case SavePods(drafts, uids) =>
        PodsKeepKeys(b.yaml, b.store, drafts, uids, n);
      case Edit(_, found, c) =>
        if EditAccepted(b.visible, found, c) {
          EditKeepsTombstone(b.yaml, b.store, found.value, Edited(b.visible[found.value], c), n);
        }
      case Delete(_, found) =>
        if found.Some? {
          DropKeepsTombstone(b.yaml, b.store, found.value, n);
        }
      case Export(_, found, table, share) =>
        if found.Some? {
          OverlayDistinct(b.yaml, b.store);
          PutKeepsTombstone(b.store, Exported(b.visible[found.value], table, share), n);
        }
      case _ =>
    }
  }

  ghost predicate NeverReused(b: Book, events: seq<Event>, n: string)
    requires Legal(b, events)
    decreases |events|
  {
    events != [] ==> !Reuses(b, events[0], n) && NeverReused(Step(b, events[0]), events[1..], n)
  }

  /** A deleted YAML name stays hidden, through rebuilds and seeds, until it is used again. */
  lemma {:induction false} HiddenUntilReused(b: Book, events: seq<Event>, n: string)
    requires Inv(b) && Legal(b, events) && Tombstone(b, n) && NeverReused(b, events, n)
    ensures n !in Run(b, events).visible
    decreases |events|
  {
    if events != [] {
      TombstoneHolds(b, events[0], n);
      StepKeeps(b, events[0]);
      HiddenUntilReused(Step(b, events[0]), events[1..], n);
    }
  }

  lemma UnseenNotCarried(yaml: View, store: Layer, u: Uid)
    requires Unseen(yaml, store, u)
    ensures !Carries(Overlay(yaml, store), u)
  {
    forall n | n in Overlay(yaml, store)
      ensures Overlay(yaml, store)[n].uid != u
    {
      VisibleIsSeen(yaml, store, n);
    }
  }

  lemma BundledHides(yaml: View, defaults: map<string, Payload.Recipe>, minted: map<string, Uid>, n: string)
    requires minted.Keys == defaults.Keys && NamedByKey(yaml) && DistinctUids(yaml)
    requires n in yaml && n in defaults && yaml[n].uid !in minted.Values
    ensures Unseen(yaml, Bundled(defaults, minted), yaml[n].uid)
  {
    var live := Live(Bundled(defaults, minted));
    forall m | m in live
      ensures live[m].uid != yaml[n].uid
    {
      assert live[m].uid == minted[m] && minted[m] in minted.Values;
    }
  }

  lemma CarriedBy(v: View, n: string)
    requires n in v
    ensures Carries(v, v[n].uid)
  {
  }

  /** A visible recipe leaves the view exactly when it is deleted, or when bundled defaults are
      written to an empty, never seeded store and one of them has its (YAML) name. */
  lemma LostExactlyWhen(b: Book, e: Event, r: Recipe)
    requires Inv(b) && Possible(b, e) && Shows(b, r)
    ensures Carries(Step(b, e).visible, r.uid) <==> !Loses(b, e, r.uid)
  {
    if !Loses(b, e, r.uid) {
      StepEvolves(b, e, r);
      CarriedBy(Step(b, e).visible, Evolved(b, e, r).name);
    } else if e.Delete? {
      DropVisible(b.yaml, b.store, e.found.value);
      UnseenNotCarried(b.yaml, Step(b, e).store, r.uid);
    } else {
      var n :| n in b.yaml && n in e.defaults && b.yaml[n].uid == r.uid;
      BundledHides(b.yaml, e.defaults, e.minted, n);
      UnseenNotCarried(b.yaml, Step(b, e).store, r.uid);
    }
  }

  const YAML_X := Recipe("x", "y1", None, None, Yaml, Payload.Recipe(0, 0, 0, 0, 0.0, []))
  const FRESH_INSTALL := Book(map["x" := YAML_X], map[], map["x" := YAML_X], None, false, false, {"y1"})

  /** A YAML recipe x, nothing stored yet, and a bundled default called x: the YAML recipe is gone
      from view. */
  lemma BundledDefaultHidesYaml()
    ensures var e := SeedDefaults(map["x" := YAML_X.brew], map["x" := "u1"]);
            && Inv(FRESH_INSTALL) && Possible(FRESH_INSTALL, e)
            && Shows(FRESH_INSTALL, YAML_X) && !Carries(Step(FRESH_INSTALL, e).visible, YAML_X.uid)
  {
    var e := SeedDefaults(map["x" := YAML_X.brew], map["x" := "u1"]);
    assert Overlay(FRESH_INSTALL.yaml, map[]) == FRESH_INSTALL.visible;
    assert forall u :: u in e.minted.Values ==> u == "u1" && "u1"[0] != "y1"[0];
    assert Possible(FRESH_INSTALL, e);
    assert FRESH_INSTALL.yaml["x"].uid in Touched(FRESH_INSTALL, e);
    LostExactlyWhen(FRESH_INSTALL, e, YAML_X);
  }

  /** The selection moves with a rename of the selected recipe, goes with its deletion, and stays for
      anything else. */
  lemma SelectionMoves(b: Book, e: Event)
    requires Inv(b) && Possible(b, e)
    ensures var after := Step(b, e).selected;
            if e.Edit? && GoesThrough(b.visible, e.found, e.changes) && b.selected == e.found && e.changes.name.Some?
            then after == e.changes.name
            else if e.Delete? && e.found.Some? && b.selected == e.found then after == None
            else after == b.selected
  {
    if e.Edit? {
      AcceptedIff(b, e.found, e.changes);
      OverlayDistinct(b.yaml, b.store);
    }
  }

  /** The selection follows its recipe through renames. */
  lemma SelectionFollows(b: Book, e: Event)
    requires Inv(b) && Possible(b, e) && b.selected.Some? && b.selected.value in b.visible
    requires !Loses(b, e, b.visible[b.selected.value].uid)
    ensures var after := Step(b, e);
            && after.selected.Some? && after.selected.value in after.visible
            && after.visible[after.selected.value].uid == b.visible[b.selected.value].uid
  {
    OverlayDistinct(b.yaml, b.store);
    StepEvolves(b, e, b.visible[b.selected.value]);
  }

  // ------------------------------------------------------------------
  // The program
  // ------------------------------------------------------------------

  datatype Result = Success | NotFound | InvalidRecipe | NameTaken

  lemma FindsNone(recipes: View, id: Identifier, found: Option<string>)
    requires Finds(recipes, id, found)
    ensures found.None? <==> Finds(recipes, id, None)
    ensures found.Some? ==> found.value in recipes
  {
  }

  lemma RebuildStep(yaml: View, store: Layer, rest: set<string>, n: string)
    requires n in rest && rest <= store.Keys
    ensures var merged := Overlay(yaml, store - rest);
            Overlay(yaml, store - (rest - {n})) == if store[n].Some? then merged[n := store[n].value] else merged - {n}
  {
  }

  lemma DeleteStep(b: Book, id: Identifier, found: Option<string>)
    requires Inv(b) && Possible(b, Delete(id, found))
    ensures Inv(Step(b, Delete(id, found)))
    ensures Step(b, Delete(id, found)) ==
            if found.None? then b
            else
              var store := Drop(b.yaml, b.store, found.value);
              b.(store := store, visible := Overlay(b.yaml, store), selected := if b.selected == found then None else b.selected)
  {
    StepKeeps(b, Delete(id, found));
  }

  lemma EditStep(b: Book, id: Identifier, found: Option<string>, c: Changes)
    requires Inv(b) && Possible(b, Edit(id, found, c))
    ensures Inv(Step(b, Edit(id, found, c)))
    ensures Step(b, Edit(id, found, c)) ==
            if !EditAccepted(b.visible, found, c) then b
            else
              var r := Edited(b.visible[found.value], c);
              var store := EditedStore(b.yaml, b.store, found.value, r);
              b.(store := store, visible := Overlay(b.yaml, store), selected := if b.selected == found then Some(r.name) else b.selected)
  {
    StepKeeps(b, Edit(id, found, c));
  }

  lemma VisibleName(b: Book, id: Identifier, found: Option<string>)
    requires Inv(b) && Finds(b.visible, id, found)
    ensures found.Some? ==> found.value in b.visible && b.visible[found.value].name == found.value
  {
    FindsNone(b.visible, id, found);
    OverlayDistinct(b.yaml, b.store);
  }

  lemma ExportedStore(b: Book, id: Identifier, found: Option<string>, table: int, share: Option<string>)
    requires b.visible == Overlay(b.yaml, b.store) && Possible(b, Export(id, found, table, share))
    requires found.Some? ==> found.value in b.visible && b.visible[found.value].name == found.value
    ensures Step(b, Export(id, found, table, share)) ==
            if found.None? then b
            else
              var store := Put(b.store, Exported(b.visible[found.value], table, share));
              b.(store := store, visible := Overlay(b.yaml, store))
  {
  }

  lemma ExportStep(b: Book, id: Identifier, found: Option<string>, table: int, share: Option<string>)
    requires Inv(b) && Possible(b, Export(id, found, table, share))
    ensures Inv(Step(b, Export(id, found, table, share)))
    ensures found.Some? ==> found.value in b.visible && b.visible[found.value].name == found.value
    ensures Step(b, Export(id, found, table, share)) ==
            if found.None? then b
            else
              var store := Put(b.store, Exported(b.visible[found.value], table, share));
              b.(store := store, visible := Overlay(b.yaml, store))
  {
    VisibleName(b, id, found);
    ExportedStore(b, id, found, table, share);
    StepKeeps(b, Export(id, found, table, share));
  }

  class Coordinator {
    const yaml: View
    var store: Layer
    var recipes: View
    var selected: Option<string>
    var seeded: bool
    var accountSeeded: bool
    ghost var used: set<Uid>

    ghost function State(): Book
      reads this
    {
      Book(yaml, store, recipes, selected, seeded, accountSeeded, used)
    }

    /** Starts from the YAML recipes and the persisted store and seeding flags. */
    constructor (yaml: View, store: Layer, seeded: bool, accountSeeded: bool, ghost used: set<Uid>)
      requires Layered(yaml, store) && AllUsed(yaml, store, used)
      ensures State() == Book(yaml, store, Overlay(yaml, store), None, seeded, accountSeeded, used)
      ensures Inv(State())
    {
      this.yaml, this.store, this.used := yaml, store, used;
      this.seeded, this.accountSeeded := seeded, accountSeeded;
      recipes, selected := map[], None;
      new;
      RebuildRecipes();
    }

    /** _rebuild_recipes. */
    method RebuildRecipes()
      modifies this`recipes
      ensures recipes == Overlay(yaml, store)
    {
      var merged := yaml;
      var rest := store.Keys;
      assert store - rest == map[];
      while rest != {}
        invariant rest <= store.Keys
        invariant merged == Overlay(yaml, store - rest)
        decreases |rest|
      {
        var n :| n in rest;
        RebuildStep(yaml, store, rest, n);
        if store[n].None? {
          merged := merged - {n};
        } else {
          merged := merged[n := store[n].value];
        }
        rest := rest - {n};
      }
      assert store - rest == store;
      recipes := merged;
    }

    /** _write_options_recipes. */
    method WriteStore(options: Layer)
      modifies this`store, this`recipes
      ensures store == options && recipes == Overlay(yaml, options)
    {
      store := options;
      RebuildRecipes();
    }

    /** create_local_recipe: identity and cloud fields of the input are dropped. */
    method CreateLocalRecipe(d: Draft, uid: Uid) returns (result: Result)
      requires Inv(State()) && uid !in used
      modifies this
      ensures State() == Step(old(State()), Create(d, uid)) && Inv(State())
      ensures result == if d.valid then Success else InvalidRecipe
    {
      StepKeeps(State(), Create(d, uid));
      used := used + {uid};
      if !d.valid {
        return InvalidRecipe;
      }
      var name := DedupeName(d.name, recipes.Keys);
      WriteStore(store[name := Some(Recipe(name, uid, None, None, Manual, d.brew))]);
      return Success;
    }

    /** async_import_cloud_recipe, once the recipe is fetched. */
    method ImportCloudRecipe(d: Draft, uid: Uid) returns (result: Result)
      requires Inv(State()) && uid !in used
      modifies this
      ensures State() == Step(old(State()), Import(d, uid)) && Inv(State())
      ensures result == if d.valid then Success else InvalidRecipe
    {
      StepKeeps(State(), Import(d, uid));
      used := used + {uid};
      if !d.valid {
        return InvalidRecipe;
      }
      var name := DedupeName(d.name, recipes.Keys);
      WriteStore(store[name := Some(Recipe(name, uid, d.tableId, ShareIdOf(d), Imported, d.brew))]);
      return Success;
    }

    /** The store without a name; a YAML name leaves a tombstone. */
    method TakeOut(name: string) returns (options: Layer)
      ensures options == Drop(yaml, store, name)
    {
      options := store - {name};
      if name in yaml {
        options := options[name := None];
        assert options == store[name := None];
      }
    }

    /** async_edit_local_recipe. */
    method EditLocalRecipe(id: Identifier, c: Changes) returns (result: Result, found: Option<string>)
      requires Inv(State())
      modifies this
      ensures Finds(old(recipes), id, found)
      ensures State() == Step(old(State()), Edit(id, found, c)) && Inv(State())
      ensures result.Success? <==> GoesThrough(old(recipes), found, c)
      ensures result.NotFound? <==> found.None?
      ensures result.InvalidRecipe? <==> found.Some? && !c.valid
    {
      found := FindRecipe(recipes, id);
      FindsNone(recipes, id, found);
      EditStep(State(), id, found, c);
      AcceptedIff(State(), found, c);
      if found.None? {
        return NotFound, found;
      }
      var from := found.value;
      var validated := Edited(recipes[from], c);
      if !c.valid {
        return InvalidRecipe, found;
      }
      if validated.name != from && validated.name in recipes {
        return NameTaken, found;
      }
      Rewrite(from, validated);
      return Success, found;
    }

    /** Writes an edited recipe back; the selection follows a rename. */
    method Rewrite(from: string, validated: Recipe)
      modifies this`store, this`recipes, this`selected
      ensures store == EditedStore(yaml, old(store), from, validated) && recipes == Overlay(yaml, store)
      ensures selected == if old(selected) == Some(from) then Some(validated.name) else old(selected)
    {
      var options := store;
      if validated.name != from {
        options := TakeOut(from);
      }
      options := options[validated.name := Some(validated)];
      if selected == Some(from) {
        selected := Some(validated.name);
      }
      WriteStore(options);
    }

    /** delete_local_recipe. */
    method DeleteLocalRecipe(id: Identifier) returns (result: Result, found: Option<string>)
      requires Inv(State())
      modifies this
      ensures Finds(old(recipes), id, found)
      ensures State() == Step(old(State()), Delete(id, found)) && Inv(State())
      ensures result.Success? <==> found.Some?
    {
      found := FindRecipe(recipes, id);
      DeleteStep(State(), id, found);
      if found.None? {
        return NotFound, found;
      }
      Remove(found.value);
      return Success, found;
    }

    method Remove(name: string)
      modifies this`store, this`recipes, this`selected
      ensures store == Drop(yaml, old(store), name) && recipes == Overlay(yaml, store)
      ensures selected == if old(selected) == Some(name) then None else old(selected)
    {
      var options := TakeOut(name);
      if selected == Some(name) {
        selected := None;
      }
      WriteStore(options);
    }

    /** The write-back of async_export_recipe. */
    method ExportRecipe(id: Identifier, table: int, share: Option<string>) returns (result: Result, found: Option<string>)
      requires Inv(State())
      modifies this
      ensures Finds(old(recipes), id, found)
      ensures State() == Step(old(State()), Export(id, found, table, share)) && Inv(State())
      ensures result.Success? <==> found.Some?
    {
      found := FindRecipe(recipes, id);
      ExportStep(State(), id, found, table, share);
      if found.None? {
        return NotFound, found;
      }
      Annotate(found.value, table, share);
      return Success, found;
    }

    /** Puts the cloud identity on the local copy. */
    method Annotate(name: string, table: int, share: Option<string>)
      requires recipes == Overlay(yaml, store) && name in recipes && recipes[name].name == name
      modifies this`store, this`recipes
      ensures store == Put(old(store), Exported(old(recipes)[name], table, share)) && recipes == Overlay(yaml, store)
    {
      var stored := if name in store && store[name].Some? then store[name].value else recipes[name];
      stored := stored.(tableId := Some(table));
      if share.Some? {
        stored := stored.(shareId := share);
      }
      WriteStore(store[name := Some(stored)]);
    }

    /** save_pod_recipes. */
    method SavePodRecipes(drafts: seq<Draft>, uids: seq<Uid>) returns (added: seq<string>)
      requires Inv(State()) && Possible(State(), SavePods(drafts, uids))
      modifies this
      ensures State() == Step(old(State()), SavePods(drafts, uids)) && Inv(State())
    {
      StepKeeps(State(), SavePods(drafts, uids));
      used := used + Set(uids);
      var options;
      options, added := CollectPods(drafts, uids);
      if added != [] {
        WriteStore(options);
      }
    }

    method CollectPods(drafts: seq<Draft>, uids: seq<Uid>) returns (options: Layer, added: seq<string>)
      requires recipes == Overlay(yaml, store) && |drafts| == |uids|
      ensures options == PodsSaved(yaml, store, drafts, uids)
      ensures added == [] ==> options == store
    {
      options, added := store, [];
      var visible := recipes;
      var i := 0;
      while i < |drafts|
        invariant 0 <= i <= |drafts| && visible == Overlay(yaml, options)
        invariant PodsSaved(yaml, options, drafts[i..], uids[i..]) == PodsSaved(yaml, store, drafts, uids)
        invariant added == [] ==> options == store
      {
        var d := drafts[i];
        assert drafts[i..][1..] == drafts[i + 1..] && uids[i..][1..] == uids[i + 1..];
        var saved := IsSaved(visible, d);
        if !saved && d.valid {
          var name := DedupeName(d.name, visible.Keys);
          var recipe := Recipe(name, uids[i], d.tableId, ShareIdOf(d), Pod, d.brew);
          PutViews(yaml, options, recipe);
          options := options[name := Some(recipe)];
          visible := visible[name := recipe];
          added := added + [name];
        }
        i := i + 1;
      }
      assert drafts[i..] == [];
    }

    static method IsSaved(visible: View, d: Draft) returns (saved: bool)
      ensures saved == AlreadySaved(visible, d)
    {
      if d.link.Some? {
        var found := FindRecipe(visible, d.link.value);
        FindsNone(visible, d.link.value, found);
        return found.Some?;
      }
      return d.name in visible && visible[d.name].source == Pod;
    }

    /** seed_bundled_recipes and the rebuild that follows it at setup. */
    method SeedBundledRecipes(defaults: map<string, Payload.Recipe>, minted: map<string, Uid>)
      requires Inv(State()) && Possible(State(), SeedDefaults(defaults, minted))
      modifies this
      ensures State() == Step(old(State()), SeedDefaults(defaults, minted)) && Inv(State())
    {
      StepKeeps(State(), SeedDefaults(defaults, minted));
      used := used + minted.Values;
      if store != map[] || seeded {
        return;
      }
      var bundled := BuildBundled(defaults, minted);
      if bundled == map[] {
        return;
      }
      WriteStore(bundled);
    }

    static method BuildBundled(defaults: map<string, Payload.Recipe>, minted: map<string, Uid>) returns (bundled: Layer)
      requires minted.Keys == defaults.Keys
      ensures bundled == Bundled(defaults, minted)
      ensures bundled == map[] <==> defaults == map[]
    {
      bundled := map[];
      var rest := defaults.Keys;
      while rest != {}
        invariant rest <= defaults.Keys && bundled.Keys == defaults.Keys - rest
        invariant forall n :: n in bundled ==> bundled[n] == Bundled(defaults, minted)[n]
        decreases |rest|
      {
        var n :| n in rest;
        bundled := bundled[n := Some(Recipe(n, minted[n], None, None, SeedBundled, defaults[n]))];
        rest := rest - {n};
      }
      assert bundled.Keys == defaults.Keys;
    }

    /** async_seed_recipes, once the recipes are fetched. */
    method SeedRecipes(account: bool, drafts: seq<Draft>, uids: seq<Uid>)
      requires Inv(State()) && Possible(State(), SeedFetched(account, drafts, uids))
      modifies this
      ensures State() == Step(old(State()), SeedFetched(account, drafts, uids)) && Inv(State())
    {
      StepKeeps(State(), SeedFetched(account, drafts, uids));
      used := used + Set(uids);
      if (if account then accountSeeded else seeded) {
        return;
      }
      var options := CollectSeeds(if account then SeedCloud else SeedOfficial, drafts, uids);
      seeded := true;
      if account {
        accountSeeded := true;
      }
      WriteStore(options);
    }

    method CollectSeeds(source: Source, drafts: seq<Draft>, uids: seq<Uid>) returns (options: Layer)
      requires |drafts| == |uids|
      ensures options == Seeded(yaml, store, source, drafts, uids)
    {
      options := store;
      var i := 0;
      while i < |drafts|
        invariant 0 <= i <= |drafts|
        invariant Seeded(yaml, options, source, drafts[i..], uids[i..]) == Seeded(yaml, store, source, drafts, uids)
      {
        var d := drafts[i];
        assert drafts[i..][1..] == drafts[i + 1..] && uids[i..][1..] == uids[i + 1..];
        if d.valid && d.name !in options && d.name !in yaml {
          options := options[d.name := Some(Recipe(d.name, uids[i], d.tableId, ShareIdOf(d), source, d.brew))];
        }
        i := i + 1;
      }
    }
  }
}
