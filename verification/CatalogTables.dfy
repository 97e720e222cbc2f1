/** The catalog tables, their triggers, and READ COMMITTED transactions over them.

    A transaction works on its view: the committed tables overlaid with its own pending rows. Inserting a row takes
    up to three steps, each on the view of its moment: its trigger, the unique index, and at the end of the statement
    its foreign key. A trigger locks the asset's row if it sees one, a foreign key shares it; both last until the
    transaction ends. A step that would wait is not enabled. */
module CatalogTables {
  import opened Options

  datatype AssetKind = Connector | AgentBlueprint | ReferenceIntake
  datatype VettingKind = ConnectorContractTest | BlueprintSecurityReview | ReferenceIntakeConstraintAttestation
  datatype VettingSource = CheckerOutput | ReviewerAsserted
  datatype CheckName = ToolScopeNonempty | ToolScopeResolves | ProtocolResolves | FakeConforms | LiveAdapterSymbol

  datatype Asset = Asset(kind: AssetKind, key: string, version: string, registeredBy: string, tail: Tail)

  // The kind-specific columns: none, the agent version, or the intake's identity.
  datatype Tail = NoTail | VersionTail(agentVersion: nat) | IntakeTail(domain: string, digest: string, source: string)

  datatype Spec = Spec(protocolModule: string, protocolName: string, fakeName: string, serviceModule: string,
                       adapterStatus: string, adapterName: Option<string>)

  datatype Vetting = Vetting(asset: nat, kind: VettingKind, source: VettingSource, passed: bool, reviewer: string)

  // `stamp` is created_at: it is taken when the row is formed, before the unique index is consulted.
  datatype Listing = Listing(asset: nat, vetting: nat, live: bool, stamp: nat)

  // specs has one row per asset; scope is keyed by asset and tool; results by vetting and check name.
  datatype Tables = Tables(assets: map<nat, Asset>, specs: map<nat, Spec>, scope: set<(nat, string)>,
                           vettings: map<nat, Vetting>, results: map<(nat, CheckName), bool>,
                           listings: map<nat, Listing>)

  const EMPTY := Tables(map[], map[], {}, map[], map[], map[])

  function Overlay(base: Tables, top: Tables): Tables {
    Tables(base.assets + top.assets, base.specs + top.specs, base.scope + top.scope, base.vettings + top.vettings,
           base.results + top.results, base.listings + top.listings)
  }

  function RequiredVettingKind(kind: AssetKind): VettingKind {
    match kind
    case Connector => ConnectorContractTest
    case AgentBlueprint => BlueprintSecurityReview
    case ReferenceIntake => ReferenceIntakeConstraintAttestation
  }

  function RequiredSource(kind: VettingKind): VettingSource {
    if kind == ConnectorContractTest then CheckerOutput else ReviewerAsserted
  }

  datatype Refusal =
    | ForeignKey | KindCheck | UniqueViolation | ConnectorChildrenFrozen | ConnectorChildrenRequired
    | ListingVettingAssetMismatch | ListingVettingNotPassed | ListingVettingKindMismatch
    | ListingVettingSourceMismatch | ListingBlueprintSelfReview | ListingConnectorChildrenRequired
    | DelistSameStateRefused

  // ---- rows that reference another row ----

  datatype Row =
    | SpecRow(asset: nat) | ScopeRow(asset: nat, tool: string)
    | RecordRow(id: nat, asset: nat) | ResultRow(record: nat, name: CheckName)

  predicate HasRow(v: Tables, row: Row) {
    match row
    case SpecRow(a) => a in v.specs
    case ScopeRow(a, tool) => (a, tool) in v.scope
    case RecordRow(id, a) => id in v.vettings && v.vettings[id].asset == a
    case ResultRow(record, name) => (record, name) in v.results
  }

  // The foreign key. A connector's child row carries the kind 'connector', by its CHECK, as part of the key.
  predicate Keyed(v: Tables, row: Row) {
    match row
    case RecordRow(_, a) => a in v.assets
    case ResultRow(record, _) => record in v.vettings
    case _ => row.asset in v.assets && v.assets[row.asset].kind == Connector
  }

  predicate IsChild(row: Row) {
    row.SpecRow? || row.ScopeRow?
  }

  // kind, key and version label: unique among the assets.
  type Identity = (AssetKind, string, string)

  function AssetIdentity(a: Asset): Identity {
    (a.kind, a.key, a.version)
  }

  predicate IsAsset(v: Tables, asset: nat, id: Identity) {
    asset in v.assets && AssetIdentity(v.assets[asset]) == id
  }

  predicate HasIdentity(v: Tables, id: Identity) {
    exists a :: a in v.assets && AssetIdentity(v.assets[a]) == id
  }

  // ---- trigger bodies, on the view of the writing transaction ----

  predicate HasScope(v: Tables, asset: nat) {
    exists row :: row in v.scope && row.0 == asset
  }

  predicate ChildrenComplete(v: Tables, asset: nat) {
    asset in v.specs && HasScope(v, asset)
  }

  predicate Vetted(v: Tables, asset: nat) {
    exists id :: id in v.vettings && v.vettings[id].asset == asset
  }

  // The freeze trigger of a connector's child rows. It does not ask whether it found the asset.
  function ChildGuard(v: Tables, asset: nat): Option<Refusal> {
    if Vetted(v, asset) then Some(ConnectorChildrenFrozen) else None
  }

  // The vetting trigger, for which an asset it does not see has a NULL kind, then the kind/provenance CHECK.
  function VettingGuard(v: Tables, row: Vetting): Option<Refusal> {
    if row.asset in v.assets && v.assets[row.asset].kind == Connector && !ChildrenComplete(v, row.asset) then
      Some(ConnectorChildrenRequired)
    else if (row.source == CheckerOutput) != (row.kind == ConnectorContractTest) then Some(KindCheck)
    else None
  }

  // The insert branch of the listing trigger. A missing vetting row reads as NULLs; the asset of a visible one is
  // visible (CatalogInvariant.VettedAssetIsVisible), so the foreign key answers for no other.
  function ListingGuard(v: Tables, asset: nat, vetting: nat): Option<Refusal> {
    if vetting !in v.vettings || v.vettings[vetting].asset != asset then Some(ListingVettingAssetMismatch)
    else
      var found := v.vettings[vetting];
      if !found.passed then Some(ListingVettingNotPassed)
      else if asset !in v.assets then Some(ForeignKey)
      else
        var row := v.assets[asset];
        if found.kind != RequiredVettingKind(row.kind) then Some(ListingVettingKindMismatch)
        else if found.source != RequiredSource(RequiredVettingKind(row.kind)) then Some(ListingVettingSourceMismatch)
        else if row.kind == AgentBlueprint && found.reviewer == row.registeredBy then Some(ListingBlueprintSelfReview)
        else if row.kind == Connector && !ChildrenComplete(v, asset) then Some(ListingConnectorChildrenRequired)
        else None
  }

  predicate HasLive(v: Tables, asset: nat) {
    exists id :: id in v.listings && v.listings[id].asset == asset && v.listings[id].live
  }

  function Count(v: Tables, vetting: nat, name: CheckName): nat {
    if (vetting, name) in v.results then 1 else 0
  }

  function CountPassed(v: Tables, vetting: nat, name: CheckName): nat {
    if (vetting, name) in v.results && v.results[(vetting, name)] then 1 else 0
  }

  // count(*) of the result rows: the name CHECK and the unique key leave five possible rows.
  function ResultCount(v: Tables, vetting: nat): nat {
    Count(v, vetting, ToolScopeNonempty) + Count(v, vetting, ToolScopeResolves) + Count(v, vetting, ProtocolResolves)
    + Count(v, vetting, FakeConforms) + Count(v, vetting, LiveAdapterSymbol)
  }

  function PassCount(v: Tables, vetting: nat): nat {
    CountPassed(v, vetting, ToolScopeNonempty) + CountPassed(v, vetting, ToolScopeResolves)
    + CountPassed(v, vetting, ProtocolResolves) + CountPassed(v, vetting, FakeConforms)
    + CountPassed(v, vetting, LiveAdapterSymbol)
  }

  // The deferred shape check of one vetting record.
  predicate ShapeOk(v: Tables, vetting: nat) {
    vetting in v.vettings ==>
      if v.vettings[vetting].source == CheckerOutput then
        ResultCount(v, vetting) == 5 && (v.vettings[vetting].passed <==> PassCount(v, vetting) == 5)
      else ResultCount(v, vetting) == 0
  }

  // ---- transactions ----

  datatype Stage =
    | Open
    | Inserting(stmt: Stmt, found: bool) // a child row whose trigger has run; did it see the asset?
    | Waiting(id: nat, listing: Listing) // a listing row that is formed
    | Failed(refusal: Refusal)

  // `owed` are the rows whose foreign key is still to be checked. `blind` records, for the proofs only, the rows whose
  // trigger did not see their asset; so does the field of the state for the committed ones.
  datatype Txn = Txn(stage: Stage, pending: Tables, owed: set<Row>, blind: set<Row>)

  const NEW_TXN := Txn(Open, EMPTY, {}, {})

  // `locks` and `shares` are row locks on assets, by FOR UPDATE and by foreign keys.
  datatype State = State(tables: Tables, txns: map<nat, Txn>, locks: map<nat, nat>, shares: set<(nat, nat)>,
                         blind: set<Row>, clock: nat)

  datatype Stmt =
    | AddAsset(id: nat, asset: Asset)
    | AddSpec(parent: nat, spec: Spec)
    | AddScope(parent: nat, tool: string)
    | AddVetting(id: nat, vetting: Vetting)
    | AddResult(record: nat, name: CheckName, passed: bool)
    | AddListing(id: nat, listed: nat, record: nat)
    | Delist(id: nat)

  datatype Event =
    | Begin(txn: nat)
    | Execute(txn: nat, stmt: Stmt) // one row of a statement, up to where it may have to wait
    | InsertChild(txn: nat) // the child row reaches its unique index
    | InsertListing(txn: nat) // the row formed by AddListing reaches the unique index
    | CheckKey(txn: nat, row: Row)
    | Commit(txn: nat)
    | Abort(txn: nat)

  function View(s: State, t: Txn): Tables {
    Overlay(s.tables, t.pending)
  }

  function ListingsOf(v: Tables, asset: nat): set<nat> {
    set id | id in v.listings && v.listings[id].asset == asset
  }

  // The transaction has inserted or delisted a listing of the asset.
  predicate TouchesListing(t: Txn, asset: nat) {
    ListingsOf(t.pending, asset) != {}
  }

  predicate Fresh(s: State, id: nat) {
    && id !in s.tables.assets && id !in s.tables.vettings && id !in s.tables.listings
    && forall y :: y in s.txns ==>
         && id !in s.txns[y].pending.assets && id !in s.txns[y].pending.vettings
         && id !in s.txns[y].pending.listings && (s.txns[y].stage.Waiting? ==> s.txns[y].stage.id != id)
  }

  // The asset whose row the statement's trigger locks.
  function LockedAsset(stmt: Stmt): Option<nat> {
    match stmt
    case AddSpec(a, _) => Some(a)
    case AddScope(a, _) => Some(a)
    case AddVetting(_, v) => Some(v.asset)
    case _ => None
  }

  // Nobody else holds a lock on the asset's row that conflicts with FOR UPDATE.
  predicate LockFree(s: State, x: nat, asset: nat) {
    (asset in s.locks ==> s.locks[asset] == x) && forall p :: p in s.shares && p.0 == asset ==> p.1 == x
  }

  // A statement inserts into one table; the keys it owes are checked before the next statement.
  predicate SameStatement(owed: set<Row>, stmt: Stmt) {
    forall row :: row in owed ==>
      match row
      case SpecRow(_) => stmt.AddSpec?
      case ScopeRow(_, _) => stmt.AddScope?
      case RecordRow(_, _) => stmt.AddVetting?
      case ResultRow(_, _) => stmt.AddResult?
  }

  // Fresh row ids, and nobody to wait for.
  predicate Ready(s: State, x: nat, stmt: Stmt) {
    && (stmt.AddAsset? || stmt.AddVetting? || stmt.AddListing? ==> Fresh(s, stmt.id))
    && (LockedAsset(stmt).Some? ==> LockFree(s, x, LockedAsset(stmt).value))
    && (stmt.AddAsset? ==>
          forall y :: y in s.txns && y != x ==> !HasIdentity(s.txns[y].pending, AssetIdentity(stmt.asset)))
    && (stmt.AddResult? ==> forall y :: y in s.txns && y != x ==> (stmt.record, stmt.name) !in s.txns[y].pending.results)
    && (stmt.Delist? ==> forall y :: y in s.txns && y != x ==> stmt.id !in s.txns[y].pending.listings)
  }

  function Refuse(t: Txn, refusal: Refusal): Txn {
    t.(stage := Failed(refusal))
  }

  // The row is in; its foreign key is owed.
  function Owing(t: Txn, pending: Tables, row: Row, found: bool): Txn {
    Txn(Open, pending, t.owed + {row}, if found then t.blind else t.blind + {row})
  }

  // What a statement makes of its transaction.
  function Effect(s: State, t: Txn, stmt: Stmt): Txn {
    var v := View(s, t);
    var p := t.pending;
    match stmt
    case AddAsset(id, asset) =>
      if HasIdentity(v, AssetIdentity(asset)) then Refuse(t, UniqueViolation)
      else t.(pending := p.(assets := p.assets[id := asset]))
    case AddSpec(a, _) =>
      var raised := ChildGuard(v, a);
      if raised.Some? then Refuse(t, raised.value) else t.(stage := Inserting(stmt, a in v.assets))
    case AddScope(a, _) =>
      var raised := ChildGuard(v, a);
      if raised.Some? then Refuse(t, raised.value) else t.(stage := Inserting(stmt, a in v.assets))
    case AddVetting(id, row) =>
      var raised := VettingGuard(v, row);
      if raised.Some? then Refuse(t, raised.value)
      else Owing(t, p.(vettings := p.vettings[id := row]), RecordRow(id, row.asset), row.asset in v.assets)
    case AddResult(record, name, passed) =>
      if (record, name) in v.results then Refuse(t, UniqueViolation)
      else Owing(t, p.(results := p.results[(record, name) := passed]), ResultRow(record, name), true)
    case AddListing(id, asset, record) =>
      var raised := ListingGuard(v, asset, record);
      if raised.Some? then Refuse(t, raised.value)
      else t.(stage := Waiting(id, Listing(asset, record, true, s.clock)))
    case Delist(id) =>
      if id !in v.listings then t
      else if !v.listings[id].live then Refuse(t, DelistSameStateRefused)
      else t.(pending := p.(listings := p.listings[id := v.listings[id].(live := false)]))
  }

  // A row lock is taken only on a committed row; an asset of one's own needs none.
  function LocksAfter(s: State, x: nat, stmt: Stmt): map<nat, nat> {
    var a := LockedAsset(stmt);
    if a.Some? && a.value in s.tables.assets then s.locks[a.value := x] else s.locks
  }

  function ChildRow(stmt: Stmt): Row
    requires stmt.AddSpec? || stmt.AddScope?
  {
    match stmt
    case AddSpec(a, _) => SpecRow(a)
    case AddScope(a, tool) => ScopeRow(a, tool)
  }

  predicate IsInserting(t: Txn) {
    t.stage.Inserting? && (t.stage.stmt.AddSpec? || t.stage.stmt.AddScope?)
  }

  function WithChild(p: Tables, stmt: Stmt): Tables {
    match stmt
    case AddSpec(a, spec) => p.(specs := p.specs[a := spec])
    case AddScope(a, tool) => p.(scope := p.scope + {(a, tool)})
    case _ => p
  }

  function ChildInserted(s: State, t: Txn): Txn
    requires IsInserting(t)
  {
    var row := ChildRow(t.stage.stmt);
    if HasRow(View(s, t), row) then Refuse(t, UniqueViolation)
    else Owing(t, WithChild(t.pending, t.stage.stmt), row, t.stage.found)
  }

  function Inserted(s: State, t: Txn): Txn
    requires t.stage.Waiting?
  {
    if HasLive(View(s, t), t.stage.listing.asset) then Refuse(t, UniqueViolation)
    else t.(stage := Open, pending := t.pending.(listings := t.pending.listings[t.stage.id := t.stage.listing]))
  }

  function KeyChecked(s: State, t: Txn, row: Row): Txn {
    if Keyed(View(s, t), row) then t.(owed := t.owed - {row}) else Refuse(t, ForeignKey)
  }

  // A foreign key to a committed asset shares the asset's row.
  function SharesAfter(s: State, x: nat, row: Row): set<(nat, nat)> {
    if !row.ResultRow? && row.asset in s.tables.assets then s.shares + {(row.asset, x)} else s.shares
  }

  function Release(locks: map<nat, nat>, x: nat): map<nat, nat> {
    map a | a in locks && locks[a] != x :: locks[a]
  }

  function Unshare(shares: set<(nat, nat)>, x: nat): set<(nat, nat)> {
    set p | p in shares && p.1 != x
  }

  // The records whose shape the deferred triggers re-check.
  function Deferred(p: Tables): set<nat> {
    p.vettings.Keys + set r | r in p.results :: r.0
  }

  predicate ShapesOk(s: State, t: Txn) {
    forall id :: id in Deferred(t.pending) ==> ShapeOk(View(s, t), id)
  }

  predicate Enabled(s: State, e: Event) {
    match e
    case Begin(x) => x !in s.txns
    case Execute(x, stmt) =>
      x in s.txns && s.txns[x].stage.Open? && SameStatement(s.txns[x].owed, stmt) && Ready(s, x, stmt)
    case InsertChild(x) =>
      && x in s.txns && IsInserting(s.txns[x])
      && forall y :: y in s.txns && y != x ==> !HasRow(s.txns[y].pending, ChildRow(s.txns[x].stage.stmt))
    case InsertListing(x) =>
      && x in s.txns && s.txns[x].stage.Waiting?
      && forall y :: y in s.txns && y != x ==> !TouchesListing(s.txns[y], s.txns[x].stage.listing.asset)
    case CheckKey(x, row) =>
      && x in s.txns && s.txns[x].stage.Open? && row in s.txns[x].owed
      && (!row.ResultRow? && row.asset in s.locks ==> s.locks[row.asset] == x)
    case Commit(x) => x in s.txns && s.txns[x].stage.Open? && s.txns[x].owed == {}
    case Abort(x) => x in s.txns
  }

  function Moved(s: State, x: nat, t: Txn): State {
    s.(txns := s.txns[x := t])
  }

  function Ended(s: State, x: nat, tables: Tables, blind: set<Row>): State {
    State(tables, s.txns - {x}, Release(s.locks, x), Unshare(s.shares, x), blind, s.clock)
  }

  function Aborted(s: State, x: nat): State {
    Ended(s, x, s.tables, s.blind)
  }

  function Committed(s: State, x: nat): State
    requires x in s.txns
  {
    Ended(s, x, View(s, s.txns[x]), s.blind + s.txns[x].blind)
  }

  function Step(s: State, e: Event): State
    requires Enabled(s, e)
  {
    match e
    case Begin(x) => Moved(s, x, NEW_TXN)
    case Execute(x, stmt) =>
      Moved(s, x, Effect(s, s.txns[x], stmt)).(locks := LocksAfter(s, x, stmt), clock := s.clock + 1)
    case InsertChild(x) => Moved(s, x, ChildInserted(s, s.txns[x]))
    case InsertListing(x) => Moved(s, x, Inserted(s, s.txns[x]))
    case CheckKey(x, row) => Moved(s, x, KeyChecked(s, s.txns[x], row)).(shares := SharesAfter(s, x, row))
    case Commit(x) => if ShapesOk(s, s.txns[x]) then Committed(s, x) else Aborted(s, x)
    case Abort(x) => Aborted(s, x)
  }

  predicate Initial(s: State) {
    s == State(EMPTY, map[], map[], {}, {}, 0)
  }

  datatype Run = Run(states: seq<State>, events: seq<Event>) {
    predicate Valid() {
      && |states| == |events| + 1
      && Initial(states[0])
      && forall i :: 0 <= i < |events| ==> Enabled(states[i], events[i]) && states[i + 1] == Step(states[i], events[i])
    }
  }
}
