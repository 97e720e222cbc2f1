/** The populate pass over the declared catalog, run by one session with nobody beside it. */
module CatalogPopulate {
  import opened Options
  import opened CatalogTables
  import opened CatalogItems

  /** One session of the catalog administrator: the tables it sees, and the next row id and clock reading. */
  class CatalogSession {
    var tables: Tables
    var next: nat
    var clock: nat
    const checks: Checker

    constructor (tables: Tables, next: nat, clock: nat, checks: Checker)
      requires WellKept(tables, next, clock)
      ensures Valid() && this.tables == tables && this.checks == checks
    {
      this.tables := tables;
      this.next := next;
      this.clock := clock;
      this.checks := checks;
    }

    ghost predicate Valid()
      reads this
    {
      WellKept(tables, next, clock)
    }

    ghost function Here(): Session
      reads this
    {
      Session(tables, next, clock)
    }

    method GetByKey(id: Identity) returns (found: Option<nat>)
      ensures found.Some? ==> IsAsset(tables, found.value, id)
      ensures found.None? ==> forall a :: !IsAsset(tables, a, id)
    {
      if a :| a in tables.assets && AssetIdentity(tables.assets[a]) == id {
        return Some(a);
      }
      return None;
    }

    method AddScope(a: nat, tools: seq<string>)
      modifies this`tables
      ensures tables == old(tables).(scope := old(tables).scope + set t | t in tools :: (a, t))
    {
      for i := 0 to |tools|
        invariant tables == old(tables).(scope := tables.scope)
        invariant tables.scope == old(tables).scope + set t | t in tools[..i] :: (a, t)
      {
        tables := tables.(scope := tables.scope + {(a, tools[i])});
      }
      assert tools[..|tools|] == tools;
    }

    method Register(item: Item) returns (r: Result<nat, PopulateError>)
      requires Valid() && forall a :: !IsAsset(tables, a, IdentityOf(item))
      modifies this
      ensures Valid()
      ensures r == if Registrable(item) then Ok(old(next)) else Err(InvalidTools(item.key))
      ensures Here() == if r.Ok? then AfterRegister(old(Here()), item) else old(Here())
      ensures r.Ok? ==> IsNewAsset(old(tables), tables, r.value, item)
    {
      hide WellKept, IsNewAsset;
      if item.ConnectorItem? && (item.tools == [] || |Names(item.tools)| != |item.tools|) {
        return Err(InvalidTools(item.key));
      }
      var a := next;
      tables := tables.(assets := tables.assets[a := NewAsset(item)]);
      if item.ConnectorItem? {
        tables := tables.(specs := tables.specs[a := item.spec]);
        AddScope(a, item.tools);
      }
      RegisteredWellKept(old(tables), a, clock, item);
      RegisteredIsNew(old(tables), a, clock, item);
      var rows := if item.ConnectorItem? then 2 + |item.tools| else 1;
      LaterClock(tables, next + 1, clock, clock + rows);
      next, clock := next + 1, clock + rows;
      return Ok(a);
    }

    // Vets the asset on the stored children and reports whether it passed.
    method RecordVetting(asset: nat, item: Item) returns (record: nat, passed: bool)
      requires Valid() && IsAsset(tables, asset, IdentityOf(item)) && Matches(tables, asset, item)
      modifies this
      ensures Valid() && record == old(next) && passed == Vets(checks, item)
      ensures Here() == AfterRecord(old(Here()), asset, item, checks)
    {
      hide WellKept, VettingGuard, VettingRow, ScopeOf, Names, ResultRows, Keeps;
      record := next;
      RecordedKeeps(tables, next, clock, asset, item, checks);
      passed := true;
      var rows := map[];
      if item.ConnectorItem? {
        var spec, scope := tables.specs[asset], ScopeOf(tables, asset);
        passed := forall n: CheckName :: checks(spec, scope, n);
        rows := ResultRows(record, checks, spec, scope);
      }
      VettingIsLetIn(tables, asset, item, passed);
      assert VettingGuard(tables, VettingRow(asset, item, passed)).None?;
      tables := tables.(vettings := tables.vettings[record := VettingRow(asset, item, passed)]);
      tables := tables.(results := tables.results + rows);
      assert tables.results == Recorded(old(tables), record, asset, item, checks).results;
      var taken := if item.ConnectorItem? then 6 else 1;
      LaterClock(tables, next + 1, clock, clock + taken);
      next, clock := next + 1, clock + taken;
    }

    method ListAsset(asset: nat, record: nat) returns (refused: Option<Refusal>)
      requires Valid()
      modifies this
      ensures Valid()
      ensures refused == if ListingGuard(old(tables), asset, record).Some? then ListingGuard(old(tables), asset, record)
                         else if HasLive(old(tables), asset) then Some(UniqueViolation) else None
      ensures Here() == if refused.Some? then old(Here()) else AfterListing(old(Here()), asset, record)
    {
      hide WellKept, HasLive, Keeps, AddsFor, LatestListed;
      refused := ListingGuard(tables, asset, record);
      if refused.None? && HasLive(tables, asset) {
        refused := Some(UniqueViolation);
      }
      if refused.None? {
        ListingKeeps(tables, next, clock, asset, record);
        tables := tables.(listings := tables.listings[next := Listing(asset, record, true, clock)]);
        next, clock := next + 1, clock + 1;
      }
    }

    method IsListed(asset: nat) returns (listed: bool)
      ensures listed == LatestListed(tables, asset)
    {
      listed := LatestListed(tables, asset);
    }

    // Vets and lists an asset that is as declared.
    method ListItem(asset: nat, item: Item) returns (error: Option<PopulateError>)
      requires Valid() && IsAsset(tables, asset, IdentityOf(item)) && Matches(tables, asset, item)
      modifies this
      ensures Valid() && Keeps(old(tables), tables) && AddsFor(old(tables), tables, {IdentityOf(item)})
      ensures error.None? <==> FitToList(old(tables), checks, asset, item)
      ensures error.None? ==> LatestListed(tables, asset) && OneListingMore(old(tables), tables)
      ensures error.None? ==> Here() == AfterVetAndList(old(Here()), asset, item, checks)
      ensures error == Some(ContractTestFailed(item.key)) <==> !Vets(checks, item)
      ensures error.Some? && Vets(checks, item) ==> error.value.Refused?
    {
      hide WellKept, Recorded, LatestListed, Matches, ListingGuard, HasLive, AssetIdentity, Keeps, AddsFor;
      RecordedKeeps(tables, next, clock, asset, item, checks);
      RecordedFits(tables, checks, next, asset, item);
      var record, passed := RecordVetting(asset, item);
      if item.ConnectorItem? && !passed {
        return Some(ContractTestFailed(item.key));
      }
      ListingKeeps(tables, next, clock, asset, record);
      KeptFor(old(tables), tables, WithListing(tables, next, asset, record, clock), asset, item);
      var refused := ListAsset(asset, record);
      match refused {
        case Some(refusal) => return Some(Refused(refusal));
        case None =>
          StillOneMore(old(tables), Recorded(old(tables), record, asset, item, checks), tables);
          return None;
      }
    }

    // Finds the item listed, or makes it so; reports whether it had to.
    method Settle(item: Item) returns (r: Result<bool, PopulateError>)
      requires Valid()
      modifies this
      ensures Valid() && Keeps(old(tables), tables) && AddsFor(old(tables), tables, {IdentityOf(item)})
      ensures r.Ok? <==> Acceptable(old(tables), checks, item)
      ensures r.Ok? ==> Settled(tables, item) && r.value == !Settled(old(tables), item)
      ensures r.Ok? ==> if r.value then OneListingMore(old(tables), tables) else tables == old(tables)
      ensures r.Ok? ==> Made(old(Here()), Here(), item, checks)
      ensures r == Err(IdentityMismatch(item.key)) <==>
                exists a :: IsAsset(old(tables), a, IdentityOf(item)) && !Matches(old(tables), a, item)
      ensures r == Err(InvalidTools(item.key)) <==>
                !Registrable(item) && forall a :: !IsAsset(old(tables), a, IdentityOf(item))
      ensures r.Err? && r.error.ContractTestFailed? ==> r.error.key == item.key && !Vets(checks, item)
      ensures r.Err? ==> !r.error.DuplicateBlueprint? && !r.error.IntakeFileMissing?
    {
      hide WellKept, Keeps, AddsFor, Matches, LatestListed, FitToList, OneListingMore, Registrable, Vets;
      var found := GetByKey(IdentityOf(item));
      match found {
        case Some(a) =>
          OnlyOne(tables, next, clock, a, item);
          Untouched(tables, item);
          if !Matches(tables, a, item) {
            return Err(IdentityMismatch(item.key));
          }
          var listed := IsListed(a);
          if listed {
            return Ok(false);
          }
          var error := ListItem(a, item);
          StillThere(old(tables), tables, a, item);
          match error {
            case Some(e) => return Err(e);
            case None =>
              assert Relisted(old(Here()), Here(), a, item, checks);
              return Ok(true);
          }
        case None =>
          NotThere(tables, item);
          Untouched(tables, item);
          var made := Register(item);
          match made {
            case Err(e) => return Err(e);
            case Ok(a) =>
              FreshFits(old(tables), tables, checks, old(next), old(clock), a, item);
              ghost var registered := tables;
              var error := ListItem(a, item);
              StillThere(registered, tables, a, item);
              KeptForBoth(old(tables), registered, tables, item);
              match error {
                case Some(e) => return Err(e);
                case None =>
                  assert NewlyListed(old(Here()), Here(), item, checks);
                  return Ok(true);
              }
          }
      }
    }

    // In sorted order of their keys.
    method PopulateConnectors(items: seq<Item>) returns (r: Result<(seq<string>, seq<string>), PopulateError>)
      requires Valid() && Distinct(items) && forall item :: item in items ==> item.ConnectorItem?
      modifies this
      ensures Valid() && Keeps(old(tables), tables) && AddsFor(old(tables), tables, Identities(items))
      ensures r.Ok? <==> AllAcceptable(old(tables), checks, items)
      ensures r.Ok? ==> Passed(old(tables), tables, items, r.value.0, r.value.1)
      ensures r.Ok? ==> PassOf(old(Here()), Here(), items, checks)
      ensures r.Err? ==> !r.error.DuplicateBlueprint? && !r.error.IntakeFileMissing?
    {
      hide WellKept, Keeps, AddsFor, Settled, Acceptable, OneListingMore, IdentityOf, Identities, KeysWhere, Made, PassOf;
      var listed, skipped := [], [];
      StartsUntouched(tables, items);
      StartsPass(Here(), items, checks);
      for i := 0 to |items|
        invariant Valid() && Progress(old(tables), tables, checks, items, i)
        invariant Listed(old(tables), tables, items, i, listed, skipped)
        invariant PassOf(old(Here()), Here(), items[..i], checks)
      {
        ghost var before, mid := tables, Here();
        NextUnaffected(old(tables), tables, checks, items, i);
        var settled := Settle(items[i]);
        if settled.Ok? {
          PassOfNext(old(Here()), mid, Here(), items, i, checks);
        }
        MadeProgress(old(tables), before, tables, checks, items, i);
        ListedNext(old(tables), before, tables, items, i, listed, skipped);
        match settled {
          case Err(e) =>
            assert !Acceptable(old(tables), checks, items[i]);
            return Err(e);
          case Ok(false) => skipped := skipped + [items[i].key];
          case Ok(true) => listed := listed + [items[i].key];
        }
      }
      assert items[..|items|] == items;
      return Ok((listed, skipped));
    }

    // In the order of the query, refusing a repeated (key, version) pair.
    method PopulateBlueprints(rows: seq<VersionRow>) returns (r: Result<(nat, nat), PopulateError>)
      requires Valid()
      modifies this
      ensures Valid() && Keeps(old(tables), tables) && AddsFor(old(tables), tables, Identities(Blueprints(rows)))
      ensures r.Ok? <==> Distinct(Blueprints(rows)) && AllAcceptable(old(tables), checks, Blueprints(rows))
      ensures r.Ok? ==>
                exists listed, skipped :: Passed(old(tables), tables, Blueprints(rows), listed, skipped)
                                          && r.value == (|listed|, |skipped|)
      ensures r.Ok? ==> PassOf(old(Here()), Here(), Blueprints(rows), checks)
      ensures r.Err? && r.error.DuplicateBlueprint? ==> !Distinct(Blueprints(rows))
      ensures r.Err? ==> !r.error.IntakeFileMissing?
    {
      hide WellKept, Keeps, AddsFor, Settled, Acceptable, OneListingMore, Identities, KeysWhere, Made, PassOf;
      var items := Blueprints(rows);
      var seen: set<(string, string)> := {};
      var listed, skipped := 0, 0;
      ghost var listedKeys, skippedKeys := [], [];
      StartsUntouched(tables, items);
      StartsPass(Here(), items, checks);
      for i := 0 to |rows|
        invariant Valid() && Progress(old(tables), tables, checks, items, i)
        invariant PassOf(old(Here()), Here(), items[..i], checks)
        invariant Listed(old(tables), tables, items, i, listedKeys, skippedKeys)
        invariant listed == |listedKeys| && skipped == |skippedKeys|
        invariant Distinct(items[..i])
        invariant forall pair :: pair in seen <==> exists j :: 0 <= j < i && (rows[j].key, rows[j].version) == pair
      {
        var pair := (rows[i].key, rows[i].version);
        if pair in seen {
          var j :| 0 <= j < i && (rows[j].key, rows[j].version) == pair;
          assert IdentityOf(items[j]) == IdentityOf(items[i]);
          SomeIdentities(items, i);
          AddsForMore(old(tables), tables, Identities(items[..i]), Identities(items));
          return Err(DuplicateBlueprint(rows[i].key));
        }
        seen := seen + {pair};
        ghost var before, mid := tables, Here();
        NextUnaffected(old(tables), tables, checks, items, i);
        var settled := Settle(items[i]);
        if settled.Ok? {
          PassOfNext(old(Here()), mid, Here(), items, i, checks);
        }
        MadeProgress(old(tables), before, tables, checks, items, i);
        ListedNext(old(tables), before, tables, items, i, listedKeys, skippedKeys);
        match settled {
          case Err(e) =>
            assert !Acceptable(old(tables), checks, items[i]);
            return Err(e);
          case Ok(false) => skipped, skippedKeys := skipped + 1, skippedKeys + [items[i].key];
          case Ok(true) => listed, listedKeys := listed + 1, listedKeys + [items[i].key];
        }
      }
      assert items[..|items|] == items;
      return Ok((listed, skipped));
    }

    // `intake` is the declared companion with the digest of its file, if the file is there.
    method PopulateIntake(intake: Option<Item>) returns (r: Result<bool, PopulateError>)
      requires Valid() && (intake.Some? ==> intake.value.IntakeItem?)
      modifies this
      ensures Valid() && Keeps(old(tables), tables)
      ensures r.Ok? <==> intake.Some? && Acceptable(old(tables), checks, intake.value)
      ensures r.Ok? ==> Passed(old(tables), tables, [intake.value], if r.value then [intake.value.key] else [],
                               if r.value then [] else [intake.value.key])
      ensures r.Ok? ==> PassOf(old(Here()), Here(), [intake.value], checks)
      ensures r.Err? ==> !r.error.DuplicateBlueprint? && (r.error.IntakeFileMissing? <==> intake.None?)
    {
      hide WellKept, Keeps, AddsFor, Settled, Acceptable, OneListingMore, IdentityOf, KeysWhere, Made, PassOf;
      match intake {
        case None =>
          StartsUntouched(tables, []);
          return Err(IntakeFileMissing);
        case Some(item) =>
          ghost var items := [item];
          StartsUntouched(tables, items);
          assert items[..0] == [] && items[..1] == items && items[0] == item;
          assert Identities(items) == {IdentityOf(item)};
          ghost var start := Here();
          StartsPass(start, items, checks);
          r := Settle(item);
          if r.Ok? {
            PassOfNext(start, start, Here(), items, 0, checks);
          }
          if r.Ok? && r.value {
            CountOneMore(old(tables), tables);
          }
          ListedNext(old(tables), old(tables), tables, items, 0, [], []);
      }
    }

    /** One pass. It succeeds exactly when the intake file is there, no (key, version) pair is repeated, and every item
        is acceptable in the tables it starts from; then every item is settled, and precisely the items that were not
        settled before got a new listing. */
    method PopulateDeclaredCatalog(connectors: seq<Item>, rows: seq<VersionRow>, intake: Option<Item>)
      returns (r: Result<Report, PopulateError>)
      requires Valid() && Distinct(connectors) && (forall item :: item in connectors ==> item.ConnectorItem?)
      requires intake.Some? ==> intake.value.IntakeItem?
      modifies this
      ensures Valid()
      ensures r.Ok? <==> intake.Some? && Distinct(Blueprints(rows))
                         && AllAcceptable(old(tables), checks, Declared(connectors, rows, intake.value))
      ensures r.Ok? ==> ReportOk(old(tables), tables, connectors, rows, intake.value, r.value)
      ensures r.Ok? ==> PassOf(old(Here()), Here(), Declared(connectors, rows, intake.value), checks)
      ensures r.Err? && r.error.DuplicateBlueprint? ==> !Distinct(Blueprints(rows))
    {
      hide WellKept, Keeps, AddsFor, Settled, Acceptable, Identities, Listed, AllAcceptable, AllSettled, Distinct, PassOf;
      ghost var before := tables;
      if intake.Some? {
        KindsApart(connectors, rows, intake.value);
        AcceptSplit(tables, checks, connectors, rows, intake.value);
      }
      var first := PopulateConnectors(connectors);
      if first.Err? {
        return Err(first.error);
      }
      ghost var middle, m := tables, Here();
      if intake.Some? {
        LaterAlike(before, middle, Identities(connectors), checks, Blueprints(rows));
      }
      var second := PopulateBlueprints(rows);
      if second.Err? {
        return Err(second.error);
      }
      ghost var late, n := tables, Here();
      if intake.Some? {
        AddsForBoth(before, middle, late, Identities(connectors), Identities(Blueprints(rows)));
        Unaffected(before, late, Identities(connectors) + Identities(Blueprints(rows)), checks, intake.value);
      }
      var third := PopulateIntake(intake);
      if third.Err? {
        return Err(third.error);
      }
      PassOfBoth(old(Here()), m, n, connectors, Blueprints(rows), checks);
      PassOfBoth(old(Here()), n, Here(), connectors + Blueprints(rows), [intake.value], checks);
      var report := Report(first.value.0, first.value.1, second.value.0, second.value.1, third.value, !third.value);
      ghost var listed, skipped :| Passed(middle, late, Blueprints(rows), listed, skipped)
                                   && second.value == (|listed|, |skipped|);
      ThreePhases(before, middle, late, tables, connectors, rows, intake.value, checks, report, listed, skipped);
      return Ok(report);
    }

    /** A second pass after a successful one, with nothing in between, succeeds, lists nothing, skips everything and
        leaves every table as it was. */
    method PopulateTwice(connectors: seq<Item>, rows: seq<VersionRow>, intake: Option<Item>)
      returns (first: Result<Report, PopulateError>, ghost between: Tables, second: Result<Report, PopulateError>)
      requires Valid() && Distinct(connectors) && (forall item :: item in connectors ==> item.ConnectorItem?)
      requires intake.Some? ==> intake.value.IntakeItem?
      modifies this
      ensures Valid()
      ensures first.Ok? ==> second == Ok(Report([], KeysOf(connectors), 0, |rows|, false, true)) && tables == between
    {
      hide WellKept, Settled, AllAcceptable, AllSettled, Distinct, KeysWhere;
      first := PopulateDeclaredCatalog(connectors, rows, intake);
      between := tables;
      if first.Ok? {
        SettledIsAcceptable(tables, next, clock, checks, Declared(connectors, rows, intake.value));
        SettledApart(tables, connectors, rows, intake.value);
        KeysAllSettled(tables, connectors);
        KeysAllSettled(tables, Blueprints(rows));
      }
      second := PopulateDeclaredCatalog(connectors, rows, intake);
    }
  }
}
