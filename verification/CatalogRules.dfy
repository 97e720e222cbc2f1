/** The rules of the catalog read off the rows: what each trigger and constraint lets in, when an item of the pass is
    listed or acceptable, and which rows listing it makes. */
module CatalogRules {
  import opened Options
  import opened CatalogTables
  import opened CatalogItems
  import opened CatalogNewest

  // ---- triggers and constraints ----

  predicate RightKind(asset: AssetKind, vetting: VettingKind) {
    || (asset == Connector && vetting == ConnectorContractTest)
    || (asset == AgentBlueprint && vetting == BlueprintSecurityReview)
    || (asset == ReferenceIntake && vetting == ReferenceIntakeConstraintAttestation)
  }

  predicate RightSource(asset: AssetKind, source: VettingSource) {
    asset == Connector <==> source == CheckerOutput
  }

  ghost predicate HasChildren(v: Tables, asset: nat) {
    asset in v.specs && exists tool :: (asset, tool) in v.scope
  }

  lemma CompleteMeansChildren(v: Tables, asset: nat)
    ensures ChildrenComplete(v, asset) <==> HasChildren(v, asset)
  {
    if ChildrenComplete(v, asset) {
      var row :| row in v.scope && row.0 == asset;
      assert (asset, row.1) in v.scope;
    }
  }

  // A passed vetting of the asset, which is there.
  predicate PassedFor(v: Tables, asset: nat, vetting: nat) {
    vetting in v.vettings && v.vettings[vetting].asset == asset && v.vettings[vetting].passed && asset in v.assets
  }

  /** The listing trigger lets a row in exactly when it binds a passed vetting of its own asset, and, kind by kind: a
      contract test by the checker, with spec and tools in place; a security review asserted by somebody other than
      the registrar; an asserted constraint attestation. */
  lemma ListingLetIn(v: Tables, asset: nat, vetting: nat)
    ensures ListingGuard(v, asset, vetting).None? <==>
            && PassedFor(v, asset, vetting)
            && var found, row := v.vettings[vetting], v.assets[asset];
               match row.kind
               case Connector =>
                 found.kind == ConnectorContractTest && found.source == CheckerOutput && HasChildren(v, asset)
               case AgentBlueprint =>
                 && found.kind == BlueprintSecurityReview && found.source == ReviewerAsserted
                 && found.reviewer != row.registeredBy
               case ReferenceIntake =>
                 found.kind == ReferenceIntakeConstraintAttestation && found.source == ReviewerAsserted
  {
    CompleteMeansChildren(v, asset);
    hide HasChildren, ChildrenComplete;
  }

  /** Which refusal a listing row meets first. */
  lemma ListingRefusals(v: Tables, asset: nat, vetting: nat)
    ensures var g := ListingGuard(v, asset, vetting);
            && (g == Some(ListingVettingAssetMismatch) <==> vetting !in v.vettings || v.vettings[vetting].asset != asset)
            && (g == Some(ListingVettingNotPassed) <==>
                  vetting in v.vettings && v.vettings[vetting].asset == asset && !v.vettings[vetting].passed)
            && (PassedFor(v, asset, vetting) ==>
                  var found, row := v.vettings[vetting], v.assets[asset];
                  && (g == Some(ListingVettingKindMismatch) <==> !RightKind(row.kind, found.kind))
                  && (g == Some(ListingVettingSourceMismatch) <==>
                        RightKind(row.kind, found.kind) && !RightSource(row.kind, found.source))
                  && (RightKind(row.kind, found.kind) && RightSource(row.kind, found.source) ==>
                        && (g == Some(ListingBlueprintSelfReview) <==>
                              row.kind == AgentBlueprint && found.reviewer == row.registeredBy)
                        && (g == Some(ListingConnectorChildrenRequired) <==>
                              row.kind == Connector && !HasChildren(v, asset))))
  {
    CompleteMeansChildren(v, asset);
    hide HasChildren, ChildrenComplete;
  }

  /** A vetting row passes its trigger and CHECK exactly when a visible connector has spec and tools, and contract
      tests, and they alone, come from the checker; it asks neither for a visible asset nor for a kind that suits it. */
  lemma VettingLetIn(v: Tables, row: Vetting)
    ensures var bare := row.asset in v.assets && v.assets[row.asset].kind == Connector && !HasChildren(v, row.asset);
            && (VettingGuard(v, row) == Some(ConnectorChildrenRequired) <==> bare)
            && (VettingGuard(v, row).None? <==>
                  !bare && (row.source == CheckerOutput <==> row.kind == ConnectorContractTest))
            && (VettingGuard(v, row).Some? && !bare ==> VettingGuard(v, row) == Some(KindCheck))
  {
    CompleteMeansChildren(v, row.asset);
    hide HasChildren, ChildrenComplete;
  }

  /** A child row is refused as frozen exactly when some vetting row names its asset, whatever its outcome. */
  lemma ChildLetIn(v: Tables, asset: nat)
    ensures ChildGuard(v, asset)
            == if exists id :: id in v.vettings && v.vettings[id].asset == asset then Some(ConnectorChildrenFrozen)
               else None
  {
    if id :| id in v.vettings && v.vettings[id].asset == asset {
      assert Vetted(v, asset);
    }
  }

  /** An asset row is refused exactly when one of its kind, key and version is visible; otherwise it becomes visible. */
  lemma AssetLetIn(s: State, t: Txn, id: nat, asset: Asset)
    requires t.stage.Open?
    ensures var v, t' := View(s, t), Effect(s, t, AddAsset(id, asset));
            var taken := exists a :: a in v.assets && v.assets[a].kind == asset.kind && v.assets[a].key == asset.key
                                     && v.assets[a].version == asset.version;
            if taken then t' == t.(stage := Failed(UniqueViolation))
            else t'.stage.Open? && View(s, t') == v.(assets := v.assets[id := asset])
  {
    hide Overlay;
    var v := View(s, t);
    if HasIdentity(v, AssetIdentity(asset)) {
      var a :| a in v.assets && AssetIdentity(v.assets[a]) == AssetIdentity(asset);
      assert v.assets[a].kind == asset.kind;
    } else {
      OneAssetMore(s.tables, t.pending, id, asset);
    }
  }

  lemma OneAssetMore(base: Tables, p: Tables, id: nat, asset: Asset)
    ensures Overlay(base, p.(assets := p.assets[id := asset]))
            == Overlay(base, p).(assets := Overlay(base, p).assets[id := asset])
  {
    assert base.assets + p.assets[id := asset] == (base.assets + p.assets)[id := asset];
  }

  /** Delisting turns a live listing off and nothing else, refuses one that is off, and passes over an unknown id. */
  lemma DelistMeans(s: State, t: Txn, id: nat)
    requires t.stage.Open?
    ensures var v, t' := View(s, t), Effect(s, t, Delist(id));
            if id !in v.listings then t' == t
            else if !v.listings[id].live then t' == t.(stage := Failed(DelistSameStateRefused))
            else t'.stage.Open?
                 && View(s, t') == v.(listings := v.listings[id := Listing(v.listings[id].asset, v.listings[id].vetting,
                                                                          false, v.listings[id].stamp)])
  {
    var v := View(s, t);
    if id in v.listings && v.listings[id].live {
      var l := v.listings[id].(live := false);
      assert s.tables.listings + t.pending.listings[id := l] == (s.tables.listings + t.pending.listings)[id := l];
    }
  }

  /** The foreign keys: a spec and a tool belong to a connector, a vetting to an asset, a result to a vetting. */
  lemma KeyMeans(v: Tables, a: nat, tool: string, id: nat, name: CheckName)
    ensures Keyed(v, SpecRow(a)) <==> a in v.assets && v.assets[a].kind == Connector
    ensures Keyed(v, ScopeRow(a, tool)) <==> a in v.assets && v.assets[a].kind == Connector
    ensures Keyed(v, RecordRow(id, a)) <==> a in v.assets
    ensures Keyed(v, ResultRow(id, name)) <==> id in v.vettings
  {
  }

  /** A transaction that owes keys goes on with rows of the same table only: the keys are checked at the end of the
      statement. */
  lemma OwingMeans(owed: set<Row>, stmt: Stmt)
    ensures SameStatement(owed, stmt) <==>
            forall row :: row in owed ==>
              || (row.SpecRow? && stmt.AddSpec?) || (row.ScopeRow? && stmt.AddScope?)
              || (row.RecordRow? && stmt.AddVetting?) || (row.ResultRow? && stmt.AddResult?)
  {
  }

  // ---- the items of the populate pass ----

  predicate NoRepeats(tools: seq<string>) {
    forall i, j :: 0 <= i < j < |tools| ==> tools[i] != tools[j]
  }

  lemma {:induction false} NamesCountedOnce(tools: seq<string>)
    ensures |Names(tools)| <= |tools|
    ensures |Names(tools)| == |tools| <==> NoRepeats(tools)
  {
    if tools != [] {
      var init, last := tools[..|tools| - 1], tools[|tools| - 1];
      NamesCountedOnce(init);
      assert tools == init + [last];
      assert Names(tools) == Names(init) + {last};
      if last in init {
        assert Names(tools) == Names(init);
      }
    }
  }

  // The asset has the item's kind, key and version.
  predicate Bears(v: Tables, a: nat, item: Item) {
    && a in v.assets && v.assets[a].key == item.key
    && match item
       case ConnectorItem(_, _, _) => v.assets[a].kind == Connector && v.assets[a].version == "v1"
       case BlueprintItem(_, version, _) => v.assets[a].kind == AgentBlueprint && v.assets[a].version == version
       case IntakeItem(_, _, _, _) => v.assets[a].kind == ReferenceIntake && v.assets[a].version == "v1"
  }

  // What is stored under the asset is what the item declares.
  ghost predicate AsDeclared(v: Tables, a: nat, item: Item)
    requires a in v.assets
  {
    match item
    case ConnectorItem(_, spec, tools) =>
      && a in v.specs && v.specs[a] == spec
      && tools != [] && NoRepeats(tools) && (forall tool :: (a, tool) in v.scope <==> tool in tools)
    case BlueprintItem(_, _, agentVersion) => v.assets[a].tail == VersionTail(agentVersion)
    case IntakeItem(_, domain, digest, source) => v.assets[a].tail == IntakeTail(domain, digest, source)
  }

  // No listing of the asset has a later stamp, or the same stamp and a greater id.
  predicate Newest(v: Tables, id: nat) {
    && id in v.listings
    && forall j :: j in v.listings && v.listings[j].asset == v.listings[id].asset && j != id ==>
         || v.listings[j].stamp < v.listings[id].stamp
         || (v.listings[j].stamp == v.listings[id].stamp && j < id)
  }

  predicate NewestIsLive(v: Tables, a: nat) {
    exists id :: id in v.listings && v.listings[id].asset == a && v.listings[id].live && Newest(v, id)
  }

  // The five checks pass on the declared spec and tools.
  ghost predicate ChecksPass(checks: Checker, item: Item) {
    item.ConnectorItem? ==>
      var tools := set tool | tool in item.tools;
      forall n: CheckName :: checks(item.spec, tools, n)
  }

  lemma BearsIdentity(v: Tables, a: nat, item: Item)
    ensures IsAsset(v, a, IdentityOf(item)) <==> Bears(v, a, item)
  {
  }

  lemma MatchesMeans(v: Tables, a: nat, item: Item)
    requires a in v.assets
    ensures Matches(v, a, item) <==> AsDeclared(v, a, item)
  {
    if item.ConnectorItem? {
      NamesCountedOnce(item.tools);
      ScopeMeans(v, a, item.tools);
      hide ScopeOf, Names, NoRepeats;
    }
  }

  lemma ScopeMeans(v: Tables, a: nat, tools: seq<string>)
    ensures ScopeOf(v, a) == Names(tools) <==> forall tool :: (a, tool) in v.scope <==> tool in tools
    ensures Names(tools) == {} <==> tools == []
  {
    assert forall tool :: tool in ScopeOf(v, a) <==> (a, tool) in v.scope;
    assert forall tool :: tool in Names(tools) <==> tool in tools;
    if tools != [] {
      assert tools[0] in Names(tools);
    }
  }

  lemma LatestMeans(v: Tables, a: nat)
    ensures LatestListed(v, a) <==> NewestIsLive(v, a)
  {
    forall id ensures IsLatest(v.listings, id) <==> Newest(v, id) {
    }
    hide IsLatest, Newest;
  }

  /** An item is settled exactly when an asset of its kind, key and version stores what the item declares and the
      newest listing of that asset is live. */
  lemma SettledMeans(v: Tables, item: Item)
    ensures Settled(v, item) <==>
            exists a :: Bears(v, a, item) && AsDeclared(v, a, item) && NewestIsLive(v, a)
  {
    forall a ensures IsAsset(v, a, IdentityOf(item)) <==> Bears(v, a, item) {
      BearsIdentity(v, a, item);
    }
    forall a | a in v.assets
      ensures Matches(v, a, item) <==> AsDeclared(v, a, item)
      ensures LatestListed(v, a) <==> NewestIsLive(v, a)
    {
      MatchesMeans(v, a, item);
      LatestMeans(v, a);
    }
    hide IdentityOf, Matches, AsDeclared, LatestListed, NewestIsLive;
  }

  /** An item is acceptable exactly when every asset of its kind, key and version stores what it declares and is either
      listed or unlisted, passing its checks and not registered by the asserting reviewer; and, if there is no such
      asset, its tools are named once each and its checks pass. */
  lemma AcceptableMeans(v: Tables, checks: Checker, item: Item)
    ensures Acceptable(v, checks, item) <==>
            && (forall a :: Bears(v, a, item) ==>
                  && AsDeclared(v, a, item)
                  && (|| NewestIsLive(v, a)
                      || (&& ChecksPass(checks, item)
                          && !(exists id :: id in v.listings && v.listings[id].asset == a && v.listings[id].live)
                          && (item.BlueprintItem? ==>
                                v.assets[a].registeredBy != "slice61b.blueprint_review_asserted"))))
            && ((forall a :: !Bears(v, a, item)) ==>
                  (item.ConnectorItem? ==> item.tools != [] && NoRepeats(item.tools)) && ChecksPass(checks, item))
  {
    forall a ensures IsAsset(v, a, IdentityOf(item)) <==> Bears(v, a, item) {
      BearsIdentity(v, a, item);
    }
    forall a | a in v.assets
      ensures Matches(v, a, item) <==> AsDeclared(v, a, item)
      ensures LatestListed(v, a) <==> NewestIsLive(v, a)
    {
      MatchesMeans(v, a, item);
      LatestMeans(v, a);
    }
    if item.ConnectorItem? {
      NamesCountedOnce(item.tools);
    }
    hide IdentityOf, Matches, AsDeclared, LatestListed, NewestIsLive, Bears, NoRepeats;
  }

  // The rows that list asset a with vetting r: the vetting as the item's kind calls for it, with the five results of a
  // connector, and a live listing under id.
  ghost predicate ListsWith(v: Tables, w: Tables, a: nat, r: nat, id: nat, stamp: nat, item: Item) {
    && w.vettings == v.vettings[r := match item
                                     case ConnectorItem(_, _, _) =>
                                       Vetting(a, ConnectorContractTest, CheckerOutput, true, "slice61b.contract_checker")
                                     case BlueprintItem(_, _, _) =>
                                       Vetting(a, BlueprintSecurityReview, ReviewerAsserted, true,
                                               "slice61b.blueprint_review_asserted")
                                     case IntakeItem(_, _, _, _) =>
                                       Vetting(a, ReferenceIntakeConstraintAttestation, ReviewerAsserted, true,
                                               "slice61b.intake_attestor")]
    && (item.ConnectorItem? ==> forall n: CheckName :: (r, n) in w.results && w.results[(r, n)])
    && (forall k :: k in v.results && (k.0 != r || !item.ConnectorItem?) ==> k in w.results && w.results[k] == v.results[k])
    && (forall k :: k in w.results && (k.0 != r || !item.ConnectorItem?) ==> k in v.results)
    && w.listings == v.listings[id := Listing(a, r, true, stamp)]
  }

  lemma VetAndListMakes(m: Session, a: nat, item: Item, checks: Checker)
    requires Vets(checks, item)
    ensures var n := AfterVetAndList(m, a, item, checks);
            && ListsWith(m.tables, n.tables, a, m.next, m.next + 1, n.clock - 1, item)
            && n.tables.assets == m.tables.assets && n.tables.specs == m.tables.specs
            && n.tables.scope == m.tables.scope && n.next == m.next + 2
  {
  }

  /** Listing an asset that is there adds its vetting, the five results of a connector, and one live listing. */
  lemma RelistedMakes(m: Session, n: Session, a: nat, item: Item, checks: Checker)
    requires Relisted(m, n, a, item, checks)
    ensures ListsWith(m.tables, n.tables, a, m.next, m.next + 1, n.clock - 1, item)
    ensures n.tables.assets == m.tables.assets && n.tables.specs == m.tables.specs && n.tables.scope == m.tables.scope
  {
    hide ListsWith, AfterVetAndList, Vets;
    VetAndListMakes(m, a, item, checks);
  }

  /** Listing a new item first makes its asset, registered by the populate actor with the columns its kind has, and for
      a connector its spec and its tools. */
  lemma NewlyListedMakes(m: Session, n: Session, item: Item, checks: Checker)
    requires NewlyListed(m, n, item, checks)
    ensures ListsWith(m.tables, n.tables, m.next, m.next + 1, m.next + 2, n.clock - 1, item)
    ensures n.tables.assets == m.tables.assets[m.next := match item
              case ConnectorItem(key, _, _) => Asset(Connector, key, "v1", "slice61b.catalog_populate", NoTail)
              case BlueprintItem(key, version, agentVersion) =>
                Asset(AgentBlueprint, key, version, "slice61b.catalog_populate", VersionTail(agentVersion))
              case IntakeItem(key, domain, digest, source) =>
                Asset(ReferenceIntake, key, "v1", "slice61b.catalog_populate", IntakeTail(domain, digest, source))]
    ensures n.tables.specs == if item.ConnectorItem? then m.tables.specs[m.next := item.spec] else m.tables.specs
    ensures forall a, tool ::
              (a, tool) in n.tables.scope <==>
              (a, tool) in m.tables.scope || (item.ConnectorItem? && a == m.next && tool in item.tools)
  {
    hide AfterVetAndList, Vets;
    VetAndListMakes(AfterRegister(m, item), m.next, item, checks);
  }
}
