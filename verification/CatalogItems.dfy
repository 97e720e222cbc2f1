/** What the populate pass must find or make: declared items, when a table accepts or has settled one, and what
    settling some items leaves alone. */
module CatalogItems {
  import opened CatalogTables
  import opened CatalogInvariant
  import opened CatalogRuns
  import opened CatalogNewest

  const VERSION_LABEL := "v1"
  const ACTOR_POPULATE := "slice61b.catalog_populate"
  const ACTOR_CONTRACT_CHECKER := "slice61b.contract_checker"
  const ACTOR_BLUEPRINT_REVIEWER := "slice61b.blueprint_review_asserted"
  const ACTOR_INTAKE_ATTESTOR := "slice61b.intake_attestor"

  // Something the pass must find, or make, listed.
  datatype Item =
    | ConnectorItem(key: string, spec: Spec, tools: seq<string>)
    | BlueprintItem(key: string, version: string, agentVersion: nat)
    | IntakeItem(key: string, domain: string, digest: string, source: string)

  function IdentityOf(item: Item): Identity {
    match item
    case ConnectorItem(key, _, _) => (Connector, key, VERSION_LABEL)
    case BlueprintItem(key, version, _) => (AgentBlueprint, key, version)
    case IntakeItem(key, _, _, _) => (ReferenceIntake, key, VERSION_LABEL)
  }

  function TailOf(item: Item): Tail {
    match item
    case ConnectorItem(_, _, _) => NoTail
    case BlueprintItem(_, _, v) => VersionTail(v)
    case IntakeItem(_, domain, digest, source) => IntakeTail(domain, digest, source)
  }

  function ReviewerOf(item: Item): string {
    match item
    case ConnectorItem(_, _, _) => ACTOR_CONTRACT_CHECKER
    case BlueprintItem(_, _, _) => ACTOR_BLUEPRINT_REVIEWER
    case IntakeItem(_, _, _, _) => ACTOR_INTAKE_ATTESTOR
  }

  function Names(tools: seq<string>): set<string> {
    set t | t in tools
  }

  function ScopeOf(v: Tables, asset: nat): set<string> {
    set row | row in v.scope && row.0 == asset :: row.1
  }

  // The stored row is the declared one, field for field.
  predicate Matches(v: Tables, asset: nat, item: Item)
    requires asset in v.assets
  {
    match item
    case ConnectorItem(_, spec, tools) =>
      && asset in v.specs && ScopeOf(v, asset) != {} && v.specs[asset] == spec
      && ScopeOf(v, asset) == Names(tools) && |ScopeOf(v, asset)| == |tools|
    case _ => v.assets[asset].tail == TailOf(item)
  }

  // The latest listing of the asset, by (created_at, id), is a live one.
  predicate LatestListed(v: Tables, asset: nat) {
    exists id :: id in v.listings && v.listings[id].asset == asset && v.listings[id].live && IsLatest(v.listings, id)
  }

  ghost predicate Settled(v: Tables, item: Item) {
    exists a :: IsAsset(v, a, IdentityOf(item)) && Matches(v, a, item) && LatestListed(v, a)
  }

  // The verdicts of the connector contract checker.
  type Checker = (Spec, set<string>, CheckName) -> bool

  predicate Vets(checks: Checker, item: Item) {
    item.ConnectorItem? ==> forall n: CheckName :: checks(item.spec, Names(item.tools), n)
  }

  // Registering a connector refuses repeated or missing tool names.
  predicate Registrable(item: Item) {
    item.ConnectorItem? ==> item.tools != [] && |Names(item.tools)| == |item.tools|
  }

  ghost predicate FitToList(v: Tables, checks: Checker, a: nat, item: Item)
    requires a in v.assets
  {
    Vets(checks, item) && !HasLive(v, a) && (item.BlueprintItem? ==> v.assets[a].registeredBy != ReviewerOf(item))
  }

  // An asset already there passes if it is as declared, and listed or fit to be listed.
  ghost predicate AcceptsExisting(v: Tables, checks: Checker, a: nat, item: Item)
    requires a in v.assets
  {
    Matches(v, a, item) && (LatestListed(v, a) || FitToList(v, checks, a, item))
  }

  /** Exactly the tables in which the pass does not refuse the item. */
  ghost predicate Acceptable(v: Tables, checks: Checker, item: Item) {
    && (forall a :: IsAsset(v, a, IdentityOf(item)) ==> AcceptsExisting(v, checks, a, item))
    && ((forall a :: !IsAsset(v, a, IdentityOf(item))) ==> Registrable(item) && Vets(checks, item))
  }

  datatype PopulateError =
    | IdentityMismatch(key: string)
    | ContractTestFailed(key: string)
    | DuplicateBlueprint(key: string)
    | IntakeFileMissing
    | InvalidTools(key: string)
    | Refused(refusal: Refusal)

  ghost predicate AssetsKept(assets: map<nat, Asset>, next: nat) {
    && (forall a, b :: a in assets && b in assets && AssetIdentity(assets[a]) == AssetIdentity(assets[b]) ==> a == b)
    && (forall a :: a in assets ==> a < next)
  }

  ghost predicate ChildrenKept(assets: map<nat, Asset>, specs: map<nat, Spec>, scope: set<(nat, string)>) {
    (forall a :: a in specs ==> a in assets) && (forall row :: row in scope ==> row.0 in assets)
  }

  ghost predicate VettingsKept(assets: map<nat, Asset>, vettings: map<nat, Vetting>, next: nat) {
    forall i :: i in vettings ==> i < next && vettings[i].asset in assets
  }

  ghost predicate ResultsKept(vettings: map<nat, Vetting>, results: map<(nat, CheckName), bool>) {
    forall r :: r in results ==> r.0 in vettings
  }

  ghost predicate ListingsKept(assets: map<nat, Asset>, listings: Listings, next: nat, clock: nat) {
    forall i :: i in listings ==> i < next && listings[i].asset in assets && listings[i].stamp < clock
  }

  // Foreign keys, the unique identity, and ids and stamps that were all handed out already.
  ghost predicate WellKept(v: Tables, next: nat, clock: nat) {
    && AssetsKept(v.assets, next) && ChildrenKept(v.assets, v.specs, v.scope)
    && VettingsKept(v.assets, v.vettings, next) && ResultsKept(v.vettings, v.results)
    && ListingsKept(v.assets, v.listings, next, clock)
  }

  // ---- what a pass may change ----

  ghost predicate Submap<K(!new), V(!new)>(m: map<K, V>, n: map<K, V>) {
    forall k :: k in m ==> k in n && n[k] == m[k]
  }

  // Every row of v is kept.
  ghost predicate Keeps(v: Tables, w: Tables) {
    && Submap(v.assets, w.assets) && Submap(v.specs, w.specs) && v.scope <= w.scope
    && Submap(v.vettings, w.vettings) && Submap(v.results, w.results) && Submap(v.listings, w.listings)
  }

  // New rows belong to assets with one of the identities, new children to new assets.
  ghost predicate AddsFor(v: Tables, w: Tables, ids: set<Identity>) {
    && (forall a :: a in w.assets && a !in v.assets ==> AssetIdentity(w.assets[a]) in ids)
    && (forall a :: a in w.specs && a !in v.specs ==> a !in v.assets)
    && (forall row :: row in w.scope && row !in v.scope ==> row.0 !in v.assets)
    && (forall i :: i in w.listings && i !in v.listings ==>
          w.listings[i].asset in w.assets && AssetIdentity(w.assets[w.listings[i].asset]) in ids)
  }

  lemma AddsForBoth(u: Tables, v: Tables, w: Tables, ids: set<Identity>, more: set<Identity>)
    requires Keeps(u, v) && Keeps(v, w) && AddsFor(u, v, ids) && AddsFor(v, w, more)
    ensures Keeps(u, w) && AddsFor(u, w, ids + more)
  {
  }

  lemma SameListings(v: Tables, w: Tables, ids: set<Identity>, a: nat)
    requires Keeps(v, w) && AddsFor(v, w, ids) && a in v.assets && AssetIdentity(v.assets[a]) !in ids
    ensures LatestListed(v, a) <==> LatestListed(w, a)
    ensures HasLive(v, a) <==> HasLive(w, a)
  {
    assert forall i :: i in w.listings && w.listings[i].asset == a ==> i in v.listings;
    forall id | id in v.listings && v.listings[id].asset == a
      ensures IsLatest(v.listings, id) <==> IsLatest(w.listings, id)
    {
      forall j | j in w.listings && w.listings[j].asset == a ensures j in v.listings && v.listings[j] == w.listings[j] {
      }
    }
  }

  lemma SameMatch(v: Tables, w: Tables, ids: set<Identity>, a: nat, item: Item)
    requires Keeps(v, w) && AddsFor(v, w, ids) && a in v.assets
    ensures Matches(v, a, item) <==> Matches(w, a, item)
  {
    assert ScopeOf(w, a) == ScopeOf(v, a) by {
      assert forall row :: row in w.scope && row.0 == a ==> row in v.scope;
    }
  }

  // What the pass does for other identities changes nothing for this item.
  lemma Unaffected(v: Tables, w: Tables, ids: set<Identity>, checks: Checker, item: Item)
    requires Keeps(v, w) && AddsFor(v, w, ids) && IdentityOf(item) !in ids
    ensures Settled(v, item) <==> Settled(w, item)
    ensures Acceptable(v, checks, item) <==> Acceptable(w, checks, item)
  {
    hide Matches, LatestListed, HasLive, Vets, Registrable;
    forall a ensures IsAsset(v, a, IdentityOf(item)) <==> IsAsset(w, a, IdentityOf(item)) {
    }
    forall a | IsAsset(v, a, IdentityOf(item))
      ensures Matches(v, a, item) <==> Matches(w, a, item)
      ensures LatestListed(v, a) <==> LatestListed(w, a)
      ensures HasLive(v, a) <==> HasLive(w, a)
    {
      SameMatch(v, w, ids, a, item);
      SameListings(v, w, ids, a);
    }
  }

  // ---- the rows one listing takes ----

  function VettingRow(asset: nat, item: Item, passed: bool): Vetting {
    var kind := RequiredVettingKind(IdentityOf(item).0);
    Vetting(asset, kind, RequiredSource(kind), passed, ReviewerOf(item))
  }

  // One row for each named check.
  function ResultRows(record: nat, checks: Checker, spec: Spec, scope: set<string>): map<(nat, CheckName), bool> {
    map n: CheckName | true :: (record, n) := checks(spec, scope, n)
  }

  // The vetting row and, for a connector, its check results.
  function Recorded(v: Tables, record: nat, asset: nat, item: Item, checks: Checker): Tables {
    var w := v.(vettings := v.vettings[record := VettingRow(asset, item, Vets(checks, item))]);
    if item.ConnectorItem? then
      w.(results := v.results + ResultRows(record, checks, item.spec, Names(item.tools)))
    else w
  }

  function WithListing(v: Tables, id: nat, asset: nat, record: nat, clock: nat): Tables {
    v.(listings := v.listings[id := Listing(asset, record, true, clock)])
  }

  // What a session sees, with the next row id and clock reading; every row it inserts takes a reading.
  datatype Session = Session(tables: Tables, next: nat, clock: nat)

  function AfterRegister(m: Session, item: Item): Session {
    Session(Registered(m.tables, m.next, item), m.next + 1,
            m.clock + 1 + if item.ConnectorItem? then 1 + |item.tools| else 0)
  }

  function AfterRecord(m: Session, asset: nat, item: Item, checks: Checker): Session {
    Session(Recorded(m.tables, m.next, asset, item, checks), m.next + 1, m.clock + if item.ConnectorItem? then 6 else 1)
  }

  function AfterListing(m: Session, asset: nat, record: nat): Session {
    Session(WithListing(m.tables, m.next, asset, record, m.clock), m.next + 1, m.clock + 1)
  }

  function AfterVetAndList(m: Session, asset: nat, item: Item, checks: Checker): Session {
    AfterListing(AfterRecord(m, asset, item, checks), asset, m.next)
  }

  // The asset is there as declared, unlisted, and is vetted and listed.
  ghost predicate Relisted(m: Session, n: Session, a: nat, item: Item, checks: Checker) {
    && IsAsset(m.tables, a, IdentityOf(item)) && Matches(m.tables, a, item) && FitToList(m.tables, checks, a, item)
    && n == AfterVetAndList(m, a, item, checks)
  }

  // There is no such asset, and it is registered, vetted and listed.
  ghost predicate NewlyListed(m: Session, n: Session, item: Item, checks: Checker) {
    && (forall a :: !IsAsset(m.tables, a, IdentityOf(item))) && Registrable(item) && Vets(checks, item)
    && n == AfterVetAndList(AfterRegister(m, item), m.next, item, checks)
  }

  // What settling an acceptable item does, row for row.
  ghost predicate Made(m: Session, n: Session, item: Item, checks: Checker) {
    (Settled(m.tables, item) && n == m) || (exists a :: Relisted(m, n, a, item, checks)) || NewlyListed(m, n, item, checks)
  }

  // What settling some items, one after the other, does.
  ghost predicate PassOf(m: Session, n: Session, items: seq<Item>, checks: Checker)
    decreases |items|, 0
  {
    if items == [] then n == m else PassThen(m, n, items[..|items| - 1], items[|items| - 1], checks)
  }

  ghost predicate PassThen(m: Session, n: Session, items: seq<Item>, item: Item, checks: Checker)
    decreases |items|, 1
  {
    exists mid :: PassOf(m, mid, items, checks) && Made(mid, n, item, checks)
  }

  lemma StartsPass(m: Session, items: seq<Item>, checks: Checker)
    ensures PassOf(m, m, items[..0], checks)
  {
  }

  lemma PassOfNext(m: Session, mid: Session, n: Session, items: seq<Item>, i: nat, checks: Checker)
    requires i < |items| && PassOf(m, mid, items[..i], checks) && Made(mid, n, items[i], checks)
    ensures PassOf(m, n, items[..i + 1], checks)
  {
    hide Made;
    assert items[..i + 1][..i] == items[..i];
  }

  lemma {:induction false} PassOfBoth(m: Session, mid: Session, n: Session, a: seq<Item>, b: seq<Item>, checks: Checker)
    requires PassOf(m, mid, a, checks) && PassOf(mid, n, b, checks)
    ensures PassOf(m, n, a + b, checks)
    decreases |b|
  {
    hide Made;
    if b == [] {
      assert a + b == a;
    } else {
      var late :| PassOf(mid, late, b[..|b| - 1], checks) && Made(late, n, b[|b| - 1], checks);
      PassOfBoth(m, mid, late, a, b[..|b| - 1], checks);
      assert (a + b)[..|a + b| - 1] == a + b[..|b| - 1];
    }
  }

  lemma LaterClock(v: Tables, next: nat, clock: nat, later: nat)
    requires WellKept(v, next, clock) && clock <= later
    ensures WellKept(v, next, later)
  {
    hide AssetsKept, ChildrenKept, VettingsKept, ResultsKept;
  }

  lemma VettingIsLetIn(v: Tables, asset: nat, item: Item, passed: bool)
    requires IsAsset(v, asset, IdentityOf(item)) && Matches(v, asset, item)
    ensures VettingGuard(v, VettingRow(asset, item, passed)).None?
  {
    if item.ConnectorItem? {
      var name :| name in ScopeOf(v, asset);
      var row :| row in v.scope && row.0 == asset && row.1 == name;
      assert HasScope(v, asset);
    }
  }

  lemma ListingIsLetIn(v: Tables, asset: nat, item: Item, record: nat)
    requires IsAsset(v, asset, IdentityOf(item)) && Matches(v, asset, item)
    requires record in v.vettings && v.vettings[record] == VettingRow(asset, item, true)
    ensures ListingGuard(v, asset, record).None? <==>
              (item.BlueprintItem? ==> v.assets[asset].registeredBy != ReviewerOf(item))
  {
    if item.ConnectorItem? {
      var name :| name in ScopeOf(v, asset);
      var row :| row in v.scope && row.0 == asset && row.1 == name;
      assert HasScope(v, asset);
    }
  }

  function NewAsset(item: Item): Asset {
    Asset(IdentityOf(item).0, item.key, IdentityOf(item).2, ACTOR_POPULATE, TailOf(item))
  }

  // The asset row and, for a connector, its spec and its tool scope.
  function Registered(v: Tables, a: nat, item: Item): Tables {
    var w := v.(assets := v.assets[a := NewAsset(item)]);
    if item.ConnectorItem? then
      w.(specs := v.specs[a := item.spec], scope := v.scope + set t | t in item.tools :: (a, t))
    else w
  }

  ghost predicate IsNewAsset(v: Tables, w: Tables, a: nat, item: Item) {
    && Keeps(v, w) && AddsFor(v, w, {IdentityOf(item)}) && w.listings == v.listings
    && IsAsset(w, a, IdentityOf(item)) && a !in v.assets
    && w.assets[a].registeredBy == ACTOR_POPULATE && Matches(w, a, item)
  }

  lemma ScopeIs(v: Tables, a: nat, tools: seq<string>)
    requires forall row :: row in v.scope && row.0 == a ==> row.1 in tools
    requires forall t :: t in tools ==> (a, t) in v.scope
    ensures ScopeOf(v, a) == Names(tools)
  {
  }

  lemma NobodyElse(v: Tables, id: Identity)
    requires forall b :: !IsAsset(v, b, id)
    ensures forall b :: b in v.assets ==> AssetIdentity(v.assets[b]) != id
  {
    forall b | b in v.assets ensures AssetIdentity(v.assets[b]) != id {
      assert !IsAsset(v, b, id);
    }
  }

  lemma RegisteredWellKept(v: Tables, a: nat, clock: nat, item: Item)
    requires WellKept(v, a, clock) && forall b :: !IsAsset(v, b, IdentityOf(item))
    ensures WellKept(Registered(v, a, item), a + 1, clock)
  {
    hide IdentityOf, TailOf, AssetIdentity, IsAsset;
    NobodyElse(v, IdentityOf(item));
    NewIdentity(item);
  }

  lemma NewIdentity(item: Item)
    ensures AssetIdentity(NewAsset(item)) == IdentityOf(item)
  {
  }

  lemma RegisteredMatches(v: Tables, a: nat, item: Item)
    requires forall row :: row in v.scope ==> row.0 != a
    requires Registrable(item)
    ensures Matches(Registered(v, a, item), a, item)
  {
    hide IdentityOf;
    var w := Registered(v, a, item);
    if item.ConnectorItem? {
      assert forall t :: t in item.tools ==> (a, t) in w.scope;
      ScopeIs(w, a, item.tools);
      assert item.tools[0] in Names(item.tools);
    }
  }

  lemma RegisteredKeeps(v: Tables, a: nat, clock: nat, item: Item)
    requires WellKept(v, a, clock)
    ensures Keeps(v, Registered(v, a, item))
    ensures AddsFor(v, Registered(v, a, item), {IdentityOf(item)})
  {
    hide IdentityOf, TailOf, AssetIdentity, NewAsset;
    NewIdentity(item);
  }

  lemma RegisteredIsNew(v: Tables, a: nat, clock: nat, item: Item)
    requires WellKept(v, a, clock) && Registrable(item)
    requires forall b :: !IsAsset(v, b, IdentityOf(item))
    ensures IsNewAsset(v, Registered(v, a, item), a, item)
  {
    hide IdentityOf, TailOf, AssetIdentity, Matches, Registrable, Keeps, AddsFor;
    NewIdentity(item);
    RegisteredKeeps(v, a, clock, item);
    RegisteredMatches(v, a, item);
  }

  lemma ResultsRecorded(v: Tables, next: nat, checks: Checker, spec: Spec, scope: set<string>, row: Vetting)
    requires VettingsKept(v.assets, v.vettings, next) && ResultsKept(v.vettings, v.results)
    ensures var results := v.results + ResultRows(next, checks, spec, scope);
            Submap(v.results, results) && ResultsKept(v.vettings[next := row], results)
  {
  }

  lemma VettingOf(asset: nat, item: Item, passed: bool)
    ensures VettingRow(asset, item, passed).asset == asset
  {
  }

  lemma ResultsUnder(vettings: map<nat, Vetting>, results: map<(nat, CheckName), bool>, id: nat, row: Vetting)
    requires ResultsKept(vettings, results)
    ensures ResultsKept(vettings[id := row], results)
  {
  }

  lemma RecordedWellKept(v: Tables, next: nat, clock: nat, asset: nat, item: Item, checks: Checker)
    requires WellKept(v, next, clock) && asset in v.assets
    ensures WellKept(Recorded(v, next, asset, item, checks), next + 1, clock)
  {
    hide ResultRows, Vets, VettingRow, AssetIdentity, ChildrenKept, ResultsKept, Names;
    var row := VettingRow(asset, item, Vets(checks, item));
    VettingOf(asset, item, Vets(checks, item));
    if item.ConnectorItem? {
      ResultsRecorded(v, next, checks, item.spec, Names(item.tools), row);
    } else {
      ResultsUnder(v.vettings, v.results, next, row);
    }
  }

  lemma RecordedKeeps(v: Tables, next: nat, clock: nat, asset: nat, item: Item, checks: Checker)
    requires WellKept(v, next, clock) && asset in v.assets
    ensures WellKept(Recorded(v, next, asset, item, checks), next + 1, clock)
    ensures Keeps(v, Recorded(v, next, asset, item, checks))
  {
    hide ResultRows, Vets, VettingRow, AssetsKept, ChildrenKept, ListingsKept, Names;
    RecordedWellKept(v, next, clock, asset, item, checks);
    if item.ConnectorItem? {
      ResultsRecorded(v, next, checks, item.spec, Names(item.tools), VettingRow(asset, item, Vets(checks, item)));
    }
  }

  lemma NewestIsLatest(v: Listings, id: nat, l: Listing)
    requires id !in v && forall i :: i in v ==> v[i].stamp < l.stamp
    ensures IsLatest(v[id := l], id)
  {
  }

  lemma ListingKeeps(v: Tables, next: nat, clock: nat, asset: nat, record: nat)
    requires WellKept(v, next, clock) && asset in v.assets
    ensures var w := WithListing(v, next, asset, record, clock);
            WellKept(w, next + 1, clock + 1) && Keeps(v, w) && AddsFor(v, w, {AssetIdentity(v.assets[asset])})
            && LatestListed(w, asset) && OneListingMore(v, w)
  {
    hide AssetIdentity, ChildrenKept, ResultsKept, IsLatest;
    NewestIsLatest(v.listings, next, Listing(asset, record, true, clock));
  }

  ghost predicate OneListingMore(v: Tables, w: Tables) {
    exists id :: id !in v.listings && w.listings.Keys == v.listings.Keys + {id}
  }

  // Once its vetting is recorded, only what FitToList names can refuse the listing.
  lemma RecordedFits(v: Tables, checks: Checker, record: nat, asset: nat, item: Item)
    requires IsAsset(v, asset, IdentityOf(item)) && Matches(v, asset, item)
    ensures var w := Recorded(v, record, asset, item, checks);
            && w.assets == v.assets && w.listings == v.listings && AddsFor(v, w, {IdentityOf(item)})
            && (HasLive(w, asset) <==> HasLive(v, asset))
            && (FitToList(v, checks, asset, item) <==>
                  (item.ConnectorItem? ==> Vets(checks, item)) && !HasLive(w, asset) && ListingGuard(w, asset, record).None?)
  {
    hide Matches, ListingGuard;
    var w := Recorded(v, record, asset, item, checks);
    if Vets(checks, item) {
      assert Matches(w, asset, item) by {
        MatchesAlike(v, w, asset, item);
      }
      ListingIsLetIn(w, asset, item, record);
    }
  }

  lemma MatchesAlike(v: Tables, w: Tables, a: nat, item: Item)
    requires a in v.assets && w.assets == v.assets && w.specs == v.specs && w.scope == v.scope
    ensures Matches(w, a, item) == Matches(v, a, item)
  {
  }

  lemma KeptFor(u: Tables, v: Tables, w: Tables, asset: nat, item: Item)
    requires Keeps(u, v) && Keeps(v, w) && AddsFor(u, v, {IdentityOf(item)}) && IsAsset(v, asset, IdentityOf(item))
    requires AddsFor(v, w, {AssetIdentity(v.assets[asset])})
    ensures Keeps(u, w) && AddsFor(u, w, {IdentityOf(item)})
  {
    hide Keeps, AddsFor;
    AddsForBoth(u, v, w, {IdentityOf(item)}, {IdentityOf(item)});
    assert {IdentityOf(item)} + {IdentityOf(item)} == {IdentityOf(item)};
  }

  lemma StillOneMore(u: Tables, v: Tables, w: Tables)
    requires u.listings == v.listings && OneListingMore(v, w)
    ensures OneListingMore(u, w)
  {
  }

  // The asset with the item's identity is the only one, so it decides.
  lemma OnlyOne(v: Tables, next: nat, clock: nat, a: nat, item: Item)
    requires WellKept(v, next, clock) && IsAsset(v, a, IdentityOf(item))
    ensures forall checks: Checker :: Acceptable(v, checks, item) <==> AcceptsExisting(v, checks, a, item)
    ensures Settled(v, item) <==> Matches(v, a, item) && LatestListed(v, a)
    ensures forall b :: IsAsset(v, b, IdentityOf(item)) ==> b == a
  {
    hide AcceptsExisting, Matches, LatestListed, IdentityOf;
    assert forall b :: IsAsset(v, b, IdentityOf(item)) ==> b == a;
  }

  lemma NotThere(v: Tables, item: Item)
    requires forall a :: !IsAsset(v, a, IdentityOf(item))
    ensures forall checks: Checker :: Acceptable(v, checks, item) <==> Registrable(item) && Vets(checks, item)
    ensures !Settled(v, item)
  {
  }

  lemma Untouched(v: Tables, item: Item)
    ensures Keeps(v, v) && AddsFor(v, v, {IdentityOf(item)})
  {
  }

  lemma StillThere(v: Tables, w: Tables, a: nat, item: Item)
    requires Keeps(v, w) && AddsFor(v, w, {IdentityOf(item)})
    requires IsAsset(v, a, IdentityOf(item)) && Matches(v, a, item)
    ensures LatestListed(w, a) ==> Settled(w, item)
  {
    hide LatestListed, Matches;
    SameMatch(v, w, {IdentityOf(item)}, a, item);
  }

  lemma FreshFits(v: Tables, w: Tables, checks: Checker, next: nat, clock: nat, a: nat, item: Item)
    requires WellKept(v, next, clock) && IsNewAsset(v, w, a, item)
    ensures FitToList(w, checks, a, item) <==> Vets(checks, item)
    ensures IsAsset(w, a, IdentityOf(item)) && Matches(w, a, item)
    ensures Keeps(v, w) && AddsFor(v, w, {IdentityOf(item)}) && w.listings == v.listings
  {
    hide Matches, Vets, Keeps, AddsFor;
    assert !HasLive(w, a);
    assert |ACTOR_POPULATE| != |ACTOR_BLUEPRINT_REVIEWER|;
  }

  lemma KeptForBoth(u: Tables, v: Tables, w: Tables, item: Item)
    requires Keeps(u, v) && AddsFor(u, v, {IdentityOf(item)}) && u.listings == v.listings
    requires Keeps(v, w) && AddsFor(v, w, {IdentityOf(item)})
    ensures Keeps(u, w) && AddsFor(u, w, {IdentityOf(item)})
    ensures OneListingMore(v, w) ==> OneListingMore(u, w)
  {
    hide Keeps, AddsFor;
    AddsForBoth(u, v, w, {IdentityOf(item)}, {IdentityOf(item)});
    assert {IdentityOf(item)} + {IdentityOf(item)} == {IdentityOf(item)};
  }

  // ---- a list of items ----

  function Identities(items: seq<Item>): set<Identity> {
    set item | item in items :: IdentityOf(item)
  }

  predicate Distinct(items: seq<Item>) {
    forall i, j :: 0 <= i < j < |items| ==> IdentityOf(items[i]) != IdentityOf(items[j])
  }

  ghost predicate AllAcceptable(v: Tables, checks: Checker, items: seq<Item>) {
    forall i :: 0 <= i < |items| ==> Acceptable(v, checks, items[i])
  }

  ghost predicate AllSettled(v: Tables, items: seq<Item>) {
    forall i :: 0 <= i < |items| ==> Settled(v, items[i])
  }

  // The keys of the items that are, or are not, settled.
  ghost function KeysWhere(v: Tables, items: seq<Item>, settled: bool): seq<string> {
    if items == [] then []
    else
      var last := items[|items| - 1];
      KeysWhere(v, items[..|items| - 1], settled) + if Settled(v, last) == settled then [last.key] else []
  }

  // The first n items that were not settled got one new listing each.
  ghost predicate Listed(v: Tables, w: Tables, items: seq<Item>, n: nat, listed: seq<string>, skipped: seq<string>)
    requires n <= |items|
  {
    && listed == KeysWhere(v, items[..n], false) && skipped == KeysWhere(v, items[..n], true)
    && |w.listings| == |v.listings| + |listed|
    && (listed == [] ==> w == v)
  }

  // The first n items have been accepted and settled, for their identities alone.
  ghost predicate Progress(v: Tables, w: Tables, checks: Checker, items: seq<Item>, n: nat)
    requires n <= |items|
  {
    && Keeps(v, w) && AddsFor(v, w, Identities(items[..n]))
    && AllAcceptable(v, checks, items[..n]) && AllSettled(w, items[..n])
  }

  lemma StartsUntouched(v: Tables, items: seq<Item>)
    ensures Keeps(v, v) && (forall ids :: AddsFor(v, v, ids)) && Listed(v, v, items, 0, [], [])
  {
  }

  lemma NotAmong(items: seq<Item>, n: nat)
    requires n < |items| && Distinct(items[..n + 1])
    ensures IdentityOf(items[n]) !in Identities(items[..n])
  {
  }

  lemma OneMoreIdentity(items: seq<Item>, n: nat)
    requires n < |items|
    ensures Identities(items[..n + 1]) == Identities(items[..n]) + {IdentityOf(items[n])}
  {
  }

  lemma SomeIdentities(items: seq<Item>, n: nat)
    requires n <= |items|
    ensures Identities(items[..n]) <= Identities(items)
  {
  }

  lemma AddsForMore(v: Tables, w: Tables, ids: set<Identity>, more: set<Identity>)
    requires AddsFor(v, w, ids) && ids <= more
    ensures AddsFor(v, w, more)
  {
  }

  lemma ListedNext(u: Tables, v: Tables, w: Tables, items: seq<Item>, n: nat, listed: seq<string>, skipped: seq<string>)
    requires n < |items| && Listed(u, v, items, n, listed, skipped)
    ensures Settled(u, items[n]) && w == v ==> Listed(u, w, items, n + 1, listed, skipped + [items[n].key])
    ensures !Settled(u, items[n]) && |w.listings| == |v.listings| + 1 ==>
              Listed(u, w, items, n + 1, listed + [items[n].key], skipped)
  {
    hide Settled;
    assert items[..n + 1][..n] == items[..n] && items[..n + 1][n] == items[n];
  }

  lemma NextUnaffected(v: Tables, w: Tables, checks: Checker, items: seq<Item>, n: nat)
    requires n < |items| && Distinct(items[..n + 1]) && Keeps(v, w) && AddsFor(v, w, Identities(items[..n]))
    ensures Settled(v, items[n]) <==> Settled(w, items[n])
    ensures Acceptable(v, checks, items[n]) <==> Acceptable(w, checks, items[n])
  {
    hide Keeps, AddsFor, Settled, Acceptable;
    NotAmong(items, n);
    Unaffected(v, w, Identities(items[..n]), checks, items[n]);
  }

  lemma MadeProgress(u: Tables, v: Tables, w: Tables, checks: Checker, items: seq<Item>, n: nat)
    requires n < |items| && Distinct(items[..n + 1]) && Progress(u, v, checks, items, n)
    requires Keeps(v, w) && AddsFor(v, w, {IdentityOf(items[n])})
    ensures Keeps(u, w) && AddsFor(u, w, Identities(items[..n + 1])) && AddsFor(u, w, Identities(items))
    ensures AllSettled(w, items[..n])
    ensures Acceptable(u, checks, items[n]) ==> AllAcceptable(u, checks, items[..n + 1])
    ensures OneListingMore(v, w) ==> |w.listings| == |v.listings| + 1
  {
    hide Keeps, AddsFor, Settled, Acceptable, IdentityOf, Identities;
    AddsForBoth(u, v, w, Identities(items[..n]), {IdentityOf(items[n])});
    OneMoreIdentity(items, n);
    SomeIdentities(items, n + 1);
    AddsForMore(u, w, Identities(items[..n + 1]), Identities(items));
    forall i | 0 <= i < n ensures Settled(w, items[i]) {
      assert Settled(v, items[..n][i]);
      assert IdentityOf(items[..n + 1][i]) != IdentityOf(items[..n + 1][n]);
      Unaffected(v, w, {IdentityOf(items[n])}, checks, items[i]);
    }
    if OneListingMore(v, w) {
      CountOneMore(v, w);
    }
  }

  lemma CountOneMore(v: Tables, w: Tables)
    requires OneListingMore(v, w)
    ensures |w.listings| == |v.listings| + 1
  {
  }

  // All items were settled on the way from v to w; `listed` names those that were not before, in order.
  ghost predicate Passed(v: Tables, w: Tables, items: seq<Item>, listed: seq<string>, skipped: seq<string>) {
    && Keeps(v, w) && AddsFor(v, w, Identities(items))
    && AllSettled(w, items) && Listed(v, w, items, |items|, listed, skipped)
  }

  // A row of agent_versions joined with its blueprint.
  datatype VersionRow = VersionRow(id: nat, version: string, key: string)

  function Blueprints(rows: seq<VersionRow>): (items: seq<Item>)
    ensures |items| == |rows|
    ensures forall i :: 0 <= i < |rows| ==> items[i] == BlueprintItem(rows[i].key, rows[i].version, rows[i].id)
  {
    seq(|rows|, i requires 0 <= i < |rows| => BlueprintItem(rows[i].key, rows[i].version, rows[i].id))
  }

  // blueprint id to key, and version id to its blueprint and label: both unique in the source tables.
  predicate UniqueVersions(blueprints: map<nat, string>, versions: map<nat, (nat, string)>) {
    && (forall b, c :: b in blueprints && c in blueprints && blueprints[b] == blueprints[c] ==> b == c)
    && (forall i, j :: i in versions && j in versions && versions[i] == versions[j] ==> i == j)
  }

  // The join yields each version at most once, with the key of its blueprint.
  predicate IsJoin(rows: seq<VersionRow>, blueprints: map<nat, string>, versions: map<nat, (nat, string)>) {
    && (forall i :: 0 <= i < |rows| ==>
          && rows[i].id in versions && versions[rows[i].id].0 in blueprints
          && rows[i].version == versions[rows[i].id].1 && rows[i].key == blueprints[versions[rows[i].id].0])
    && (forall i, j :: 0 <= i < j < |rows| ==> rows[i].id != rows[j].id)
  }

  /** The refusal of a repeated blueprint version is unreachable: the query never yields a (key, version) pair twice. */
  lemma QueryYieldsNoDuplicate(rows: seq<VersionRow>, blueprints: map<nat, string>, versions: map<nat, (nat, string)>)
    requires UniqueVersions(blueprints, versions) && IsJoin(rows, blueprints, versions)
    ensures Distinct(Blueprints(rows))
  {
    forall i, j | 0 <= i < j < |rows| ensures IdentityOf(Blueprints(rows)[i]) != IdentityOf(Blueprints(rows)[j]) {
      var v, w := versions[rows[i].id], versions[rows[j].id];
      assert v != w;
      assert rows[i].key == rows[j].key ==> v.0 == w.0;
      assert v.0 == w.0 ==> v.1 != w.1;
    }
  }

  /** In any reachable committed catalog the probe "the latest listing is listed" finds a live listing of the asset
      if and only if one that was not overtaken is live; the probe and "some listing is live" part only there. */
  lemma LatestListedIffLiveInTime(run: Run, n: nat, a: nat)
    requires run.Valid() && n <= |run.events|
    ensures var v := run.states[n].tables;
            LatestListed(v, a) <==>
            exists id :: id in v.listings && v.listings[id].asset == a && v.listings[id].live && !WasOvertaken(run, n, id)
  {
    hide WasOvertaken;
    var v := run.states[n].tables;
    forall id | id in v.listings && v.listings[id].live
      ensures IsLatest(v.listings, id) <==> !WasOvertaken(run, n, id)
    {
      LiveIsNewestIffNotOvertaken(run, n, id);
    }
  }

  /** An asset whose live listing was overtaken is refused by the populate pass, whatever item has its identity: the pass
      finds it unlisted, and the unique index has it listed. */
  lemma OvertakenIsRefused(run: Run, n: nat, id: nat, checks: Checker, item: Item)
    requires run.Valid() && n <= |run.events| && id in run.states[n].tables.listings
    requires run.states[n].tables.listings[id].live && WasOvertaken(run, n, id)
    requires IsAsset(run.states[n].tables, run.states[n].tables.listings[id].asset, IdentityOf(item))
    ensures !Acceptable(run.states[n].tables, checks, item)
  {
    hide WasOvertaken, IdentityOf, Matches, Vets, ProperlyListed, IsLatest, Registrable, AssetIdentity;
    var v, a := run.states[n].tables, run.states[n].tables.listings[id].asset;
    LatestListedIffLiveInTime(run, n, a);
    EveryListingIsVetted(run, n);
    assert HasLive(v, a);
    assert !LatestListed(v, a);
    assert !AcceptsExisting(v, checks, a, item);
  }

  predicate IdsBelow(v: Tables, next: nat) {
    && (forall a :: a in v.assets ==> a < next)
    && (forall i :: i in v.vettings ==> i < next)
    && (forall i :: i in v.listings ==> i < next)
  }

  lemma KeysKept(v: Tables)
    requires KeysHold(v, {})
    ensures ChildrenKept(v.assets, v.specs, v.scope) && ResultsKept(v.vettings, v.results)
    ensures forall i :: i in v.vettings ==> v.vettings[i].asset in v.assets
  {
    forall a | a in v.specs ensures a in v.assets {
      assert HasRow(v, SpecRow(a));
    }
    forall row | row in v.scope ensures row.0 in v.assets {
      assert HasRow(v, ScopeRow(row.0, row.1));
    }
    forall i | i in v.vettings ensures v.vettings[i].asset in v.assets {
      assert HasRow(v, RecordRow(i, v.vettings[i].asset));
    }
    forall r | r in v.results ensures r.0 in v.vettings {
      assert HasRow(v, ResultRow(r.0, r.1));
    }
  }

  lemma ListingsBound(v: Tables)
    requires forall id :: ListingSound(v, id)
    ensures forall i :: i in v.listings ==> v.listings[i].asset in v.assets
  {
    forall i | i in v.listings ensures v.listings[i].asset in v.assets {
      assert ListingSound(v, i);
    }
  }

  /** Every reachable catalog is fit for the populate pass: its foreign keys and unique identities hold, and its stamps
      lie in the past. */
  lemma ReachableIsWellKept(run: Run, n: nat, next: nat)
    requires run.Valid() && n <= |run.events| && IdsBelow(run.states[n].tables, next)
    ensures WellKept(run.states[n].tables, next, run.states[n].clock)
  {
    hide TxnOk, Apart, ShapesSound, Examined, LocksOk, ListingSound, OneLive, AssetIdentity, KeysHold, TxnStamps,
         ChildrenKept, ResultsKept;
    RunInv(run, n);
    RunStamped(run, n);
    KeysKept(run.states[n].tables);
    ListingsBound(run.states[n].tables);
  }

  function Declared(connectors: seq<Item>, rows: seq<VersionRow>, intake: Item): seq<Item> {
    connectors + Blueprints(rows) + [intake]
  }

  datatype Report = Report(connectorListed: seq<string>, connectorSkipped: seq<string>, blueprintListed: nat,
                           blueprintSkipped: nat, intakeListed: bool, intakeSkipped: bool)

  // What one successful pass has done and reports.
  ghost predicate ReportOk(v: Tables, w: Tables, connectors: seq<Item>, rows: seq<VersionRow>, intake: Item, r: Report) {
    && Keeps(v, w) && AllSettled(w, Declared(connectors, rows, intake))
    && r.connectorListed == KeysWhere(v, connectors, false) && r.connectorSkipped == KeysWhere(v, connectors, true)
    && r.blueprintListed == |KeysWhere(v, Blueprints(rows), false)|
    && r.blueprintSkipped == |KeysWhere(v, Blueprints(rows), true)|
    && r.intakeListed == !Settled(v, intake) && r.intakeSkipped == Settled(v, intake)
    && |w.listings| == |v.listings| + |r.connectorListed| + r.blueprintListed + (if r.intakeListed then 1 else 0)
    && (r.connectorListed == [] && r.blueprintListed == 0 && !r.intakeListed ==> w == v)
  }

  lemma KindsApart(connectors: seq<Item>, rows: seq<VersionRow>, intake: Item)
    requires (forall item :: item in connectors ==> item.ConnectorItem?) && intake.IntakeItem?
    ensures Identities(connectors) !! Identities(Blueprints(rows))
    ensures IdentityOf(intake) !in Identities(connectors) + Identities(Blueprints(rows))
  {
  }

  lemma AcceptSplit(v: Tables, checks: Checker, connectors: seq<Item>, rows: seq<VersionRow>, intake: Item)
    ensures AllAcceptable(v, checks, Declared(connectors, rows, intake)) <==>
              AllAcceptable(v, checks, connectors) && AllAcceptable(v, checks, Blueprints(rows))
              && Acceptable(v, checks, intake)
  {
    hide Acceptable;
    var all, b := Declared(connectors, rows, intake), Blueprints(rows);
    forall i | 0 <= i < |connectors| ensures all[i] == connectors[i] {
    }
    forall i | 0 <= i < |b| ensures all[|connectors| + i] == b[i] {
    }
    assert all[|connectors| + |b|] == intake;
  }

  // Items of other identities fare alike before and after.
  lemma LaterAlike(u: Tables, v: Tables, ids: set<Identity>, checks: Checker, items: seq<Item>)
    requires Keeps(u, v) && AddsFor(u, v, ids) && ids !! Identities(items)
    ensures AllAcceptable(u, checks, items) <==> AllAcceptable(v, checks, items)
    ensures AllSettled(u, items) <==> AllSettled(v, items)
    ensures forall settled :: KeysWhere(u, items, settled) == KeysWhere(v, items, settled)
  {
    hide Keeps, AddsFor, Acceptable, Settled, IdentityOf, KeysWhere;
    forall i | 0 <= i < |items|
      ensures Acceptable(u, checks, items[i]) <==> Acceptable(v, checks, items[i])
      ensures Settled(u, items[i]) <==> Settled(v, items[i])
    {
      assert IdentityOf(items[i]) in Identities(items);
      Unaffected(u, v, ids, checks, items[i]);
    }
    forall settled ensures KeysWhere(u, items, settled) == KeysWhere(v, items, settled) {
      SameKeys(u, v, items, settled);
    }
  }

  lemma {:induction false} SameKeys(u: Tables, v: Tables, items: seq<Item>, settled: bool)
    requires forall i :: 0 <= i < |items| ==> (Settled(u, items[i]) <==> Settled(v, items[i]))
    ensures KeysWhere(u, items, settled) == KeysWhere(v, items, settled)
  {
    hide Settled;
    if items != [] {
      SameKeys(u, v, items[..|items| - 1], settled);
    }
  }

  // Three passes for disjoint identities add up.
  lemma PhasesAddUp(u: Tables, v: Tables, x: Tables, w: Tables, a: seq<Item>, b: seq<Item>, c: seq<Item>, checks: Checker)
    requires Keeps(u, v) && AddsFor(u, v, Identities(a)) && AllSettled(v, a)
    requires Keeps(v, x) && AddsFor(v, x, Identities(b)) && AllSettled(x, b)
    requires Keeps(x, w) && AddsFor(x, w, Identities(c)) && AllSettled(w, c)
    requires Identities(a) !! Identities(b) && (Identities(a) + Identities(b)) !! Identities(c)
    ensures Keeps(u, w) && AllSettled(w, a) && AllSettled(w, b)
    ensures forall settled :: KeysWhere(u, b, settled) == KeysWhere(v, b, settled)
    ensures forall settled :: KeysWhere(u, c, settled) == KeysWhere(x, c, settled)
  {
    hide Keeps, AddsFor, Identities, AllAcceptable, AllSettled, KeysWhere;
    LaterAlike(u, v, Identities(a), checks, b);
    AddsForBoth(u, v, x, Identities(a), Identities(b));
    LaterAlike(u, x, Identities(a) + Identities(b), checks, c);
    LaterAlike(v, x, Identities(b), checks, a);
    AddsForBoth(u, x, w, Identities(a) + Identities(b), Identities(c));
    LaterAlike(x, w, Identities(c), checks, a);
    LaterAlike(x, w, Identities(c), checks, b);
  }

  lemma ThreePhases(u: Tables, v: Tables, x: Tables, w: Tables, connectors: seq<Item>, rows: seq<VersionRow>, intake: Item,
                    checks: Checker, r: Report, listed: seq<string>, skipped: seq<string>)
    requires (forall item :: item in connectors ==> item.ConnectorItem?) && intake.IntakeItem?
    requires Passed(u, v, connectors, r.connectorListed, r.connectorSkipped)
    requires Passed(v, x, Blueprints(rows), listed, skipped)
    requires r.blueprintListed == |listed| && r.blueprintSkipped == |skipped|
    requires Passed(x, w, [intake], if r.intakeListed then [intake.key] else [], if r.intakeListed then [] else [intake.key])
    requires r.intakeSkipped == !r.intakeListed
    ensures ReportOk(u, w, connectors, rows, intake, r)
  {
    hide Keeps, AddsFor, Settled, AllSettled, IdentityOf, Identities, KeysWhere;
    var b := Blueprints(rows);
    KindsApart(connectors, rows, intake);
    OneIdentity(intake);
    WholeLists(connectors, b, intake);
    PhasesAddUp(u, v, x, w, connectors, b, [intake], checks);
    KeysOfOne(u, intake);
    SettledTogether(w, connectors, rows, intake);
  }

  lemma OneIdentity(item: Item)
    ensures Identities([item]) == {IdentityOf(item)}
  {
  }

  lemma WholeLists(a: seq<Item>, b: seq<Item>, item: Item)
    ensures a[..|a|] == a && b[..|b|] == b && [item][..1] == [item]
  {
  }

  lemma KeysOfOne(v: Tables, item: Item)
    ensures KeysWhere(v, [item], false) == if Settled(v, item) then [] else [item.key]
  {
  }

  lemma SettledTogether(w: Tables, connectors: seq<Item>, rows: seq<VersionRow>, intake: Item)
    requires AllSettled(w, connectors) && AllSettled(w, Blueprints(rows)) && AllSettled(w, [intake])
    ensures AllSettled(w, Declared(connectors, rows, intake))
  {
    hide Settled;
    assert Settled(w, [intake][0]);
  }

  // ---- a pass over what is settled already ----

  lemma SettledIsAcceptable(v: Tables, next: nat, clock: nat, checks: Checker, items: seq<Item>)
    requires WellKept(v, next, clock) && AllSettled(v, items)
    ensures AllAcceptable(v, checks, items)
  {
    hide WellKept, Matches, LatestListed;
    forall i | 0 <= i < |items| ensures Acceptable(v, checks, items[i]) {
      var a :| IsAsset(v, a, IdentityOf(items[i])) && Matches(v, a, items[i]) && LatestListed(v, a);
      OnlyOne(v, next, clock, a, items[i]);
    }
  }

  lemma {:induction false} KeysAllSettled(v: Tables, items: seq<Item>)
    requires AllSettled(v, items)
    ensures KeysWhere(v, items, false) == [] && KeysWhere(v, items, true) == KeysOf(items)
  {
    hide Settled;
    if items != [] {
      KeysAllSettled(v, items[..|items| - 1]);
    }
  }

  function KeysOf(items: seq<Item>): (keys: seq<string>)
    ensures |keys| == |items|
  {
    if items == [] then [] else KeysOf(items[..|items| - 1]) + [items[|items| - 1].key]
  }

  lemma SettledApart(v: Tables, connectors: seq<Item>, rows: seq<VersionRow>, intake: Item)
    requires AllSettled(v, Declared(connectors, rows, intake))
    ensures AllSettled(v, connectors) && AllSettled(v, Blueprints(rows)) && Settled(v, intake)
  {
    hide Settled;
    var all, b := Declared(connectors, rows, intake), Blueprints(rows);
    forall i | 0 <= i < |connectors| ensures Settled(v, connectors[i]) {
      assert all[i] == connectors[i];
    }
    forall i | 0 <= i < |b| ensures Settled(v, b[i]) {
      assert all[|connectors| + i] == b[i];
    }
    assert all[|connectors| + |b|] == intake;
  }
}
