# Verified models of the UAID OS decision core

UAID OS keeps its authority in small deterministic pieces: a role-gated policy writer inside the database, a product
catalog policed by triggers, a cost forecast that opens or closes a gate, cross-project learning, intake audits, squad
building and qualification scoring. This project models those pieces in Dafny and proves what they promise.

`dafny verify dfyconfig.toml` checks everything.

| files | what they model |
|---|---|
| `Options`, `Bags`, `Decimals` | shared types and SQL's three-valued logic; sequences up to order; 28-digit decimal division with banker's rounding |
| `Rbac`, `Overrides` | role evaluation, the CHECKs and insert guard of admin actions; the override monotonicity test |
| `PolicyWriter`, `PolicyWriterInvariant`, `PolicyRuns`, `TightenRuns`, `RacyWriter`, `RacyRuns`, `PolicyTables`, `PolicyAlone` | the policy writer as interleaved transactions, what every run keeps, the earlier body and exactly when it loses the chain, the body as it executes on its tables, and the runs of a call that meets nobody |
| `CatalogTables`, `CatalogInvariant`, `CatalogSteps`, `CatalogCommit`, `CatalogRuns`, `CatalogUnseen`, `CatalogNewest`, `CatalogOvertaken` | the catalog tables and triggers under interleaved transactions |
| `CatalogItems`, `CatalogPopulate`, `CatalogPass` | the idempotent populate pass, and its place among the runs of the catalog transactions |
| `CatalogRules` | what triggers, constraints and the pass let in and write, read off the rows |
| `CostForecast`, `CostForecastLaws`, `CostForecastLines` | the cost forecast, its loops, its arithmetic and gate, and what each line adds |
| `Qualification`, `Squad`, `SquadScores` | qualification scoring, squad building, and what a score rewards |
| `Findings`, `Readiness`, `IntakeAgreement`, `IntakeMeaning` | the two analyses of the intake graph, the readiness ladder, and what their entries mean |
| `Learning`, `LearningRows`, `Optimizer`, `OptimizerRules` | learning buckets and what they count; the cost optimizer and its tables |

How the concurrent parts are read: transactions are READ COMMITTED. A transaction sees committed rows and its own; a row
lock, or the claim of an uncommitted inserter on a unique key, lasts until its transaction ends; a step that would have
to wait is not enabled; a raised exception leaves nothing to do but abort. A run is any sequence of enabled steps from
an initial state, so a statement about all runs covers every interleaving of these steps and every abort. A step is what
the database does between two points where it may wait or take a new snapshot: inserting a catalog row that references
another is its trigger, its unique index and, at the end of the statement, its foreign key. The reads of one trigger are
taken together; what they read only grows, or is locked.

Code and documentation part ways in these places, and the model follows the code:

- "A vetted connector's children are frozen" and "a connector needs its children to be vetted" hold of rows whose trigger
  saw the asset. The triggers do not ask whether they found it: for an asset that is not yet visible they lock nothing and
  find no vetting and no kind, while the foreign key is checked later and may by then find it committed.
  `CatalogUnseen.VettedConnectorCanGrow` and `CatalogUnseen.ConnectorCanBeVettedBare` are such runs,
  `CatalogRuns.CommittedCatalogIsFrozen` says exactly when the children stay, and `CatalogUnseen.FrozenIfSeen` and
  `CatalogUnseen.VettedIncompleteWasMissed` that it suffices to have seen the asset first, as the functions of
  `app/repositories/catalog_admin.py` do by locking it or by having inserted it themselves. What a listing binds does not
  depend on this (`CatalogRuns.EveryListingIsVetted`).
- "The latest listing is listed" is meant to say that some listing is live. It does not always: a listing is stamped
  before it waits for the unique index on live listings, so a later-stamped listing may be stored, delisted and
  committed while it waits. `CatalogOvertaken.LiveListingNeedNotBeNewest` is such a run, and
  `CatalogNewest.LiveIsNewestIffNotOvertaken` says exactly when the two agree, and
  `CatalogNewest.NeverWaitedIsNotOvertaken` that they do for a row that never had to wait. A later populate pass finds
  such an asset unlisted and is refused by the unique index (`CatalogItems.OvertakenIsRefused`).
- The override test is reflexive on well-formed maps only: a stored `allow: true` or `requires_approval: false` cannot be
  written back by a tighten (`Overrides.MonotonicIsReflexiveIffWellFormed`).
- The qualification function divides by zero when called with no case and a minimum of zero or less. Only a direct call
  can do so: a stored threshold has a minimum of at least one (`Qualification.VerdictMeans`).
- The earlier writer body breaks the ledger of a project exactly when the project starts without a policy and more than one
  of its rows says that there was none before it (`RacyRuns.RacyLedgerIsAChainIff`).

## Model

| member | source | states |
|---|---|---|
| Rbac.DatabaseAcceptsExactlyTheEvaluation | app/admin/rbac.py:101-138 | For every row and grant table, the CHECKs with SQL NULL logic and the insert guard together accept a (decision, required role, actor role) exactly when it is the one the evaluation returns. |
| Rbac.EvaluationIgnoresOrder | app/admin/rbac.py:101-138 | The evaluation depends on the set of active grants of the principal in the tenant, not on their order or on other rows. |
| Rbac.AllowedMeansSufficientGrant | app/admin/rbac.py:15-18 | An accepted action is recorded as allowed if and only if its actor is authenticated and is an active administrator of the tenant or, for a tighten, an active operator; a policy setting records the administrator as required, a tighten the operator. |
| Rbac.EvaluationMeans | app/admin/rbac.py:101-138 | Read off the grant rows: each of the four decisions exactly when it is given, the required role of each kind, and that the recorded role is the highest the actor holds. |
| Rbac.ChecksMean | app/admin/db_checks.py:67-101 | The CHECKs that relate the columns of an action hold exactly when required role, provenance and recorded role are what kind and decision call for. |
| Rbac.GuardRaises | app/admin/guards_sql.py:11-54 | Which raise the insert guard gives for a row, from the rows of the grant table. |
| Rbac.GuardByHighestGrant | app/admin/guards_sql.py:11-54 | The guard's three aggregates say, decision by decision, what the highest active grant says. |
| Overrides.MonotonicIsTransitive | app/admin/policy_sql.py:187-199 | The override test composes on all maps. |
| Overrides.MonotonicIsReflexiveIffWellFormed | app/admin/policy_sql.py:187-199 | A map passes against itself if and only if it only disables and only requires approval. |
| PolicyWriterInvariant.StepInv | app/admin/policy_sql.py:59-129 | Every step of every transaction keeps the accounting of policy rows by ledger rows, lock ownership, and the link of each pending row to an allowed action. |
| PolicyWriterInvariant.GuardNeverTrips | app/admin/guards_sql.py:78-108 | A call that has reached its spend satisfies the ledger's insert guard and CHECKs. |
| PolicyRuns.LedgerIsAChain | app/admin/policy_sql.py:59-129 | In every run a project's committed ledger rows chain from its starting level, NULL only if it had no policy, to its stored level, about one policy row, one ledger row per write. |
| PolicyRuns.PolicyMovesWithItsLedger | app/admin/policy_sql.py:122-129 | Between any two moments a committed policy is unchanged unless the ledger grew for its project, and it is never removed. |
| PolicyRuns.EverySpendIsAuthorized | app/admin/policy_sql.py:49-81 | No action is spent twice; each spent action is allowed, of the same tenant and project, and was recorded at an earlier step when its authenticated actor was an active administrator of the tenant or, for a tighten, an active operator. |
| PolicyRuns.GrantsFollowTheirEvents | app/admin/guards_sql.py:56-76 | In every run a grant row is one that stood at the start or that a step gave, its tenant, principal and role never change, and it is active until it is revoked and never after. |
| PolicyRuns.WriterStaysInItsProject | app/admin/policy_sql.py:122-127 | A statement of the writer changes no committed policy and no visible policy of another project; a commit changes policies of its tenant only. |
| PolicyRuns.NoSpuriousRefusal | app/admin/policy_sql.py:110-120 | No reachable call fails for want of the row it relocks, on the ledger guard or on the ledger CHECKs, and a spend never waits. |
| TightenRuns.CommittedTightens | app/admin/policy_sql.py:156-160 | A commit whose rows for a project are all tightens leaves its level and every overridden action; on each a set allow then reads false, a set requires_approval true, and a set minimum level is at least as high. |
| TightenRuns.TightensOnlyTighten | app/admin/policy_sql.py:37-47 | Over any stretch of a run whose writes to a project are all tightens the level does not move, no overridden action disappears, and on each a set allow ends as false, a set requires_approval as true, and a set minimum level at least as high. |
| RacyWriter.RacyLedgerIsNotAChain | app/admin/policy_sql.py:84-98 | Under the earlier body there is a run whose ledger is not a chain. |
| RacyRuns.RacyLedgerIsAChainIff | app/admin/policy_sql.py:84-98 | In every run of the earlier body a project's ledger rows are a chain if and only if it has a policy at the start or at most one row has a NULL previous level. |
| RacyRuns.RacyRowContinuesIff | app/admin/policy_sql.py:84-98 | In every state of such a run a row about to be spent continues its project's account if and only if its probe found a policy or there is still none at the upsert. |
| PolicyTables.PolicyDatabase.InsertChange | app/admin/guards_sql.py:78-108 | The ledger insert refuses on the guard, the CHECKs or the unique action, in that order, and otherwise appends the row. |
| PolicyTables.PolicyDatabase.WriteAutonomyPolicy | app/admin/policy_sql.py:162-182 | One uninterrupted call either writes the policy and one ledger row citing the level before, or raises the first applicable refusal and leaves both tables as they were. |
| PolicyTables.UninterruptedCallIsSoloWrite | app/admin/policy_sql.py:100-129 | The interleaved statements, run to the end without interference, have exactly the effect of that one call. |
| PolicyTables.WritesExactlyWhen | app/admin/policy_sql.py:162-182 | A call writes if and only if its action is an allowed one of the tenant and project and not yet spent, the new and any stored level lie in 0 to 5, and a tighten finds a policy at its level and drops or loosens no override of it, field by field. |
| PolicyTables.RefusedExactlyWhenItRelaxes | app/admin/policy_sql.py:187-199 | An allowed tighten of a stored policy at its own level is refused as relaxing if and only if it drops an overridden action, does not set a set allow to false or a set requires_approval to true, or drops or lowers a minimum level. |
| PolicyTables.ChangeRefusals | app/admin/guards_sql.py:78-108 | For every ledger row, which raise of its guard refuses it, when its CHECKs hold, and when its action counts as spent. |
| PolicyAlone.LoneCallIsARun | app/admin/policy_sql.py:162-182 | From any reachable state with no open transaction a call of the writer runs without waiting to a commit or, refused, to an abort, and leaves exactly the tables the single call leaves. |
| PolicyAlone.ActionCanBeRecorded | app/admin/guards_sql.py:11-54 | In such a state every action that CHECKs and guard accept can be recorded and committed. |
| CatalogCommit.StepInv | app/ecosystem/catalog_ddl.py:59-193 | Every step of every catalog transaction, be it a trigger, a unique index, a foreign key or an end, keeps the committed tables and each transaction's view of them sound. |
| CatalogInvariant.VettedAssetIsVisible | app/ecosystem/catalog_ddl.py:116-128 | Whoever forms a listing sees the asset of the vetting it cites, so the listing trigger never compares a NULL kind. |
| CatalogRuns.EveryListingIsVetted | app/ecosystem/catalog_ddl.py:88-154 | In every committed state every listing ever made binds a passed vetting of its own asset: a connector a contract test by the checker, with spec, tools and five passed checks; a blueprint a security review asserted by another than its registrar; an intake an asserted constraint attestation. One listing per asset is live at most. |
| CatalogRuns.EveryVettingIsShaped | app/ecosystem/catalog_ddl.py:170-193 | In every committed state contract tests, and they alone, come from the checker; the checker's vettings hold all five results and passed exactly if all of these did; asserted ones hold none. |
| CatalogRuns.ShapeMeans | app/ecosystem/catalog_ddl.py:170-193 | The counts of the deferred check say exactly that of one vetting. |
| CatalogRuns.CommittedCatalogIsFrozen | app/ecosystem/catalog_ddl.py:59-72 | From any moment on no asset, spec, tool name, vetting or check result changes or goes, and a listing changes only by being delisted; a vetted asset keeps its spec and tool scope as they are if and only if no child row of it is committed whose trigger did not see it. |
| CatalogUnseen.FrozenIfSeen | app/ecosystem/catalog_ddl.py:59-72 | If every statement that wrote a child row for the asset of a committed vetting saw the asset, its spec and tool scope never change again. |
| CatalogUnseen.VettedIncompleteWasMissed | app/ecosystem/catalog_ddl.py:74-86 | A committed vetting of a connector that lacks its spec or has no tool was written by a statement that did not see the asset. |
| CatalogUnseen.VettedConnectorCanGrow | app/ecosystem/catalog_ddl.py:59-72 | There is a run in which a connector that passed its contract test gains a tool afterwards. |
| CatalogUnseen.ConnectorCanBeVettedBare | app/ecosystem/catalog_ddl.py:74-86 | There is a run in which a connector is vetted with no spec and no tool scope. |
| CatalogNewest.LiveIsNewestIffNotOvertaken | app/repositories/catalog_reads.py:62-71 | The live listing of an asset is its newest by (created_at, id) if and only if it was not overtaken when it was stored. |
| CatalogNewest.NeverWaitedIsNotOvertaken | app/models/ecosystem_catalog.py:173-178 | A listing that could have been stored at every moment from the forming of its row to its storing is not overtaken: only one that had to wait for the unique index can be. |
| CatalogOvertaken.LiveListingNeedNotBeNewest | app/models/ecosystem_catalog.py:173-178 | There is a run whose live listing is older than a delisted one of the same asset. |
| CatalogItems.LatestListedIffLiveInTime | app/ecosystem/catalog_populate.py:98-100 | In every reachable catalog the populate pass's probe finds an asset listed exactly when a listing that was not overtaken is live. |
| CatalogItems.OvertakenIsRefused | app/ecosystem/catalog_populate.py:120-130 | In every reachable catalog an item whose asset has an overtaken live listing is not acceptable to the populate pass. |
| CatalogItems.ReachableIsWellKept | app/models/ecosystem_catalog.py:33-190 | Every reachable catalog meets what the populate pass starts from: foreign keys, unique identities, and stamps in the past. |
| CatalogItems.QueryYieldsNoDuplicate | app/ecosystem/catalog_populate.py:172-193 | The refusal of a repeated blueprint version is unreachable, by the unique keys of the two source tables. |
| CatalogItems.Unaffected | app/ecosystem/catalog_populate.py:115-146 | Settling some identities changes neither whether another item is settled nor whether it is acceptable. |
| CatalogItems.SettledIsAcceptable | app/ecosystem/catalog_populate.py:127-129 | A settled item is accepted again. |
| CatalogRules.ListingLetIn | app/ecosystem/catalog_ddl.py:116-150 | The listing trigger lets a row in if and only if its vetting is a passed one of its asset and, kind by kind, of the right vetting kind and provenance, with spec and tools for a connector and a reviewer other than the registrar for a blueprint. |
| CatalogRules.ListingRefusals | app/ecosystem/catalog_ddl.py:116-150 | Which of its refusals a listing row meets first. |
| CatalogRules.VettingLetIn | app/ecosystem/catalog_ddl.py:74-86 | When the vetting trigger and the kind CHECK let a vetting in, and which of the two refuses it. |
| CatalogRules.ChildLetIn | app/ecosystem/catalog_ddl.py:59-72 | A spec or tool is refused as frozen exactly when some vetting names its asset. |
| CatalogRules.AssetLetIn | app/models/ecosystem_catalog.py:38 | An asset is refused exactly when one of its kind, key and version is visible. |
| CatalogRules.DelistMeans | app/ecosystem/catalog_ddl.py:94-112 | Delisting turns a live listing off, changes nothing else, and is refused for one that is off. |
| CatalogRules.KeyMeans | app/models/ecosystem_catalog.py:66-147 | The foreign keys: a spec and a tool belong to a connector, a vetting to an asset, a result to a vetting. |
| CatalogRules.OwingMeans | app/models/ecosystem_catalog.py:66-147 | Foreign keys are checked at the end of the statement: a transaction that owes keys goes on with rows of the same table only. |
| CatalogRules.SettledMeans | app/ecosystem/catalog_populate.py:60-100 | An item counts as settled exactly when an asset of its kind, key and version stores what it declares, field by field, and the newest listing of that asset is live. |
| CatalogRules.AcceptableMeans | app/ecosystem/catalog_populate.py:119-145 | An item is acceptable exactly when every asset of its kind, key and version stores what it declares and is listed, or unlisted, passing its checks and not registered by the asserting reviewer; and if there is none, its tools are named once each and its checks pass. |
| CatalogRules.RelistedMakes | app/ecosystem/catalog_populate.py:103-112 | Listing an asset that is there adds a vetting of the kind, provenance and reviewer its kind calls for, five results for a connector, and one live listing. |
| CatalogRules.NewlyListedMakes | app/repositories/catalog_admin.py:71-180 | Listing a new item adds besides the asset, with the version, registrar and kind-specific columns of its kind, and for a connector its spec and tools. |
| CatalogPopulate.CatalogSession.Register | app/repositories/catalog_admin.py:71-127 | A new asset is written with its declared children, or refused for its tool names, and nothing else changes. |
| CatalogPopulate.CatalogSession.ListItem | app/ecosystem/catalog_populate.py:103-112 | Vetting and listing an asset succeeds exactly if its checks pass, no listing of it is live and its reviewer did not register it; then its latest listing is live and one listing was added. |
| CatalogPopulate.CatalogSession.Settle | app/ecosystem/catalog_populate.py:119-145 | An item is accepted exactly when acceptable; it is then settled, with no row touched if it was settled before; a mismatch or bad tools are reported exactly when there are such. |
| CatalogPopulate.CatalogSession.PopulateConnectors | app/ecosystem/catalog_populate.py:115-146 | The connector loop accepts exactly the acceptable lists, and reports exactly the keys that were not settled as listed and the others as skipped. |
| CatalogPopulate.CatalogSession.PopulateBlueprints | app/ecosystem/catalog_populate.py:185-224 | The blueprint loop does the same, refusing a repeated pair. |
| CatalogPopulate.CatalogSession.PopulateIntake | app/ecosystem/catalog_populate.py:235-270 | The intake step does the same for its one item, refusing a missing file. |
| CatalogPopulate.CatalogSession.PopulateDeclaredCatalog | app/ecosystem/catalog_populate.py:273-289 | A pass succeeds exactly when every item is acceptable at its start; then all are settled, older rows are kept, and exactly one listing per item that was not settled is added; `PassOf` says it row for row. |
| CatalogPopulate.CatalogSession.PopulateTwice | app/ecosystem/catalog_populate.py:273-289 | A second pass after a successful one succeeds, lists nothing, skips everything and leaves every table as it was. |
| CatalogPass.PassIsARun | app/ecosystem/catalog_populate.py:273-289 | From any reachable catalog with nobody at work, what a successful pass does is a run of one transaction, through triggers, unique indexes, foreign keys and deferred checks, that commits exactly the tables the session ends with. |
| Decimals.PercentIsExact | app/cost_forecast.py:406-413 | For amounts and limits within the money cap, the 28-digit quotient times 100 quantized to four places is the exact percentage rounded half up once. |
| Decimals.PercentSides | app/cost_forecast.py:409-413 | A value below its limit never shows above 100 percent and one at or over it never below. |
| Decimals.QuotientIs | app/cost_forecast.py:409-411 | A quotient is the nearest decimal of 28 digits, of two equally near ones the even one. |
| CostForecast.ValidateLedger | app/cost_forecast.py:277-310 | The ledger loop accepts exactly the acceptable ledgers, sums them by component in all and for the day, and every refusal it gives is so. |
| CostForecast.ValidateAssumptions | app/cost_forecast.py:258-274 | The assumption loop accepts exactly one line per component with amounts in range, and every refusal it gives is so. |
| CostForecast.ModelRemaining | app/cost_forecast.py:313-353 | The model loop accepts exactly the acceptable lines and prices what remains, and every refusal it gives is so. |
| CostForecast.ForecastComponents | app/cost_forecast.py:367-380 | The component loop succeeds exactly if every component's forecast is within the cap, and then holds those forecasts. |
| CostForecast.DeriveForecast | app/cost_forecast.py:356-499 | A forecast succeeds exactly on acceptable inputs and then is the decision that the order-free totals determine; otherwise it reports the first fault. |
| CostForecastLaws.LineCostIsExact | app/cost_forecast.py:334-341 | Products, sum and quotient of a model line fit 28 digits, so the line is the exact token cost rounded half up once. |
| CostForecastLaws.TotalsAreExact | app/cost_forecast.py:369-394 | The all-cost total is the ledger sum plus the assumptions plus the model lines exactly, the model part within 64 micro-dollars of the exact token cost. |
| CostForecastLaws.DailyWithinTotal | app/cost_forecast.py:369-380 | No component's daily forecast exceeds its total forecast. |
| CostForecastLaws.ForecastIgnoresOrder | app/cost_forecast.py:437-453 | Reordering ledger, assumption or model lines changes neither success nor any part of the decision, the hashed ledger and assumption material included; only the price material keeps its order. |
| CostForecastLaws.GateOnlyCloses | app/cost_forecast.py:426-435 | Between two successful forecasts, more events or model lines, higher amounts, tokens, rates or minutes never open the gate. |
| CostForecastLaws.OpenGateMeans | app/cost_forecast.py:382-435 | The gate is open if and only if nothing stopped, all cost is below the total and daily budget, model cost below its total and daily limit, cloud cost and CI minutes below theirs, and none of the six exact percentages rounded once exceeds the approval threshold; each reason exactly when it is given. |
| CostForecastLaws.DecisionShows | app/cost_forecast.py:382-424 | The six rows of a decision in order: each named value against its named limit, the exact percentage rounded once, the two flags and the result code. |
| CostForecastLines.EventAdds | app/cost_forecast.py:300-309 | One more ledger event adds its amount to its component, to today's forecast only on the day of the forecast, and nothing elsewhere. |
| CostForecastLines.AssumptionAdds | app/cost_forecast.py:368-380 | One more assumption adds its total, or its share of today, to its component, and nothing to model inference. |
| CostForecastLines.ModelLineAdds | app/cost_forecast.py:334-341 | One more model line adds its tokens at its rates per thousand, rounded half up once, to model inference alone. |
| CostForecastLines.NothingForecast | app/cost_forecast.py:367-380 | Without lines every forecast is nothing. |
| CostForecastLines.LedgerAccepted | app/cost_forecast.py:277-310 | When a ledger is accepted, bound by bound. |
| CostForecastLines.AssumptionsAccepted | app/cost_forecast.py:258-274 | When assumptions are accepted, bound by bound. |
| CostForecastLines.ModelsAccepted | app/cost_forecast.py:313-343 | When model lines are accepted, bound by bound. |
| CostForecastLines.InputAccepted | app/cost_forecast.py:356-408 | When an input is accepted beyond its three lists. |
| CostForecastLines.MaterialMeans | app/cost_forecast.py:437-453 | The hashed ledger is in strictly increasing order of event ids, the hashed assumptions name every component in order with its amounts, and the price material is as given. |
| CostForecastLaws.GateOpensAndCloses | app/cost_forecast.py:404-435 | Both answers occur: nothing spent opens the gate, the whole budget spent closes it. |
| Qualification.DeriveCounts | app/agents/qualification.py:29-42 | The counting loop returns the number of cases, passes and critical failures and the set of categories. |
| Qualification.CountsMean | app/agents/qualification.py:29-42 | The four counts: of the cases, the passing ones, the critical ones that did not pass, and the categories that occur. |
| Qualification.RateTestIsExact | app/agents/qualification.py:66-68 | For fewer than ten to the 24 cases the 28-digit quotient test agrees with cross-multiplication for every three-decimal threshold. |
| Qualification.VerdictMeans | app/agents/qualification.py:52-73 | A verdict is passed if and only if there is a case and the minimum of cases, the share of passing ones reaches the threshold, no critical case failed where none may, and every required category occurs; the division fails exactly with no case and no minimum, so for no stored threshold. |
| Qualification.VerdictIgnoresOrder | app/agents/qualification.py:29-73 | The verdict does not depend on the order of the cases. |
| Qualification.PassingCaseNeverFails | app/agents/qualification.py:52-73 | One more passing case never turns a passed verdict into a failed one. |
| Findings.DetectGaps | app/intake/findings.py:83-116 | The gap loops report exactly the gaps of the artifacts, stage by stage. |
| Findings.DetectContradictions | app/intake/findings.py:118-162 | The contradiction loops report exactly the faults of the artifacts, stage by stage, skipping those that are their own parents. |
| Findings.DetectFindings | app/intake/findings.py:57-167 | The report is the two lists, stably sorted. |
| Readiness.SpineGaps | app/intake/readiness.py:230-276 | The audit's loops report exactly the spine gaps of the artifacts and whether any requirement is covered. |
| Readiness.EvaluateReadiness | app/intake/readiness.py:215-354 | The audit climbs to the highest level whose conditions hold and sets the staging flag and reason from it. |
| IntakeAgreement.OneContradictionEach | app/intake/findings.py:118-162 | With distinct ids every artifact yields at most one contradiction. |
| IntakeAgreement.SpineGapsAreFindings | app/intake/readiness.py:242-276 | The audit's spine gaps are, one for one, the report's uncovered requirements and criteria without an oracle, its orphaned and wrongly parented criteria and oracles, and the criteria and oracles among the artifacts it reports as their own parents. |
| IntakeAgreement.FindingsIgnoreOrder | app/intake/findings.py:165-167 | The report is the same sequence for every order of the artifacts, although contradictions can tie on the sort key. |
| IntakeAgreement.R5MeansNothingMissing | app/intake/readiness.py:186-191 | The level is R5 if and only if there is a requirement and nothing is missing for go-live, and go-live is never allowed. |
| IntakeAgreement.R5AllowsStaging | app/intake/readiness.py:312-318 | R5 allows building to staging. |
| IntakeAgreement.ReadinessOnlyRises | app/intake/readiness.py:278-324 | For fixed artifacts, more declarations and passed gates lower neither the level nor the staging flag. |
| IntakeMeaning.GapsMean | app/intake/findings.py:83-116 | With distinct ids a gap is reported if and only if it says so of an artifact: no requirement at all, a requirement without a criterion, a criterion of a requirement without an oracle, or an assumption not classified as safe. |
| IntakeMeaning.ContradictionsMean | app/intake/findings.py:118-162 | With distinct ids a contradiction is reported if and only if it says so of an artifact: it is its own parent; or, if not, a requirement has a parent, or a criterion or oracle has none or one of the wrong kind. |
| IntakeMeaning.ReportIsOrdered | app/intake/findings.py:165-167 | Both lists come in the order of the names of their kinds, and within a kind in that of the refs. |
| IntakeMeaning.SpineGapsMean | app/intake/readiness.py:242-276 | With distinct ids a spine gap is listed if and only if it says so of an artifact. |
| IntakeMeaning.LevelMeans | app/intake/readiness.py:278-310 | Rung by rung: R1 takes a requirement, R2 a criterion of one, R3 workflows, data and architecture declared, R4 integrations and tool access declared and every artifact of the spine covered, R5 every category declared and both gates passed. |
| IntakeMeaning.MissingListsMean | app/intake/readiness.py:284-307 | Each rung lists exactly its undeclared categories, and the gates listed are those not passed. |
| IntakeMeaning.NothingDeclared | app/intake/readiness.py:69-85 | With nothing declared each rung lists all its categories in the order of the intake files. |
| IntakeMeaning.AssumptionsMean | app/intake/readiness.py:326-337 | Every assumption is listed as safe exactly if it is classified so, and as blocked otherwise. |
| IntakeMeaning.StagingMeans | app/intake/readiness.py:312-324 | Staging takes R3 and declared environments, and the reason says what is missing. |
| IntakeMeaning.MissingForGoLiveMeans | app/intake/readiness.py:186-191 | What is missing for go-live is each spine gap, each undeclared category under its rung, and each gate not passed. |
| Squad.BestIsBest | app/agents/skills.py:333-334 | The chosen agent is a candidate of highest rounded score and least ref among equals, and there is one whenever there is a candidate. |
| Squad.BestWithinAMillionth | app/agents/skills.py:210-235 | By its exact score the chosen agent is within a millionth of every candidate. |
| Squad.CandidateProvides | app/agents/skills.py:307-312 | Candidates provide a required skill, and a full list leaves out none with a smaller ref. |
| Squad.HighRiskIgnoresCost | app/agents/skills.py:214-215 | A high-risk unit is scored as if it had declared no cost or latency fit. |
| Squad.ReviewerIsAnother | app/agents/skills.py:179-187 | No agent is among its own reviewers. |
| Squad.BuildSquad | app/agents/skills.py:284-357 | Each unit with a candidate is listed once in its best agent's slot, reviewers are distinct others, missing skills are the wanted ones without repetition, in the order first flagged and parallel to the requests, every candidate has a row, and the row limit cannot be exceeded. |
| Squad.EveryUnitIsPlaced | app/agents/skills.py:335-347 | A unit with candidates goes to its best agent and to nobody else, and one who can review it is among that agent's reviewers, or its skills are reported as lacking one; the slot bears the role of a capability of that ref, the agent's own if refs are distinct. |
| SquadScores.SkillAdds | app/agents/skills.py:165-169 | One more required skill is worth 0.30 over the number of distinct required skills, any other skill nothing. |
| SquadScores.DomainAdds | app/agents/skills.py:321 | The unit's domain is worth 0.15 to an agent that has it. |
| SquadScores.ToolAdds | app/agents/skills.py:172-176 | One more required tool is worth 0.15 over the number of distinct required tools, any other tool nothing. |
| SquadScores.NoToolsAreAllTools | app/agents/skills.py:172-176 | A unit that needs no tools scores as one whose tools the agent all has. |
| SquadScores.ReviewerAdds | app/agents/skills.py:190-192 | Another agent who can review one of the unit's skills is worth 0.10. |
| SquadScores.FitAdds | app/agents/skills.py:214-224 | The declared fit adds a tenth of itself, nothing at high risk. |
| SquadScores.RiskCosts | app/agents/skills.py:61 | Medium risk costs 0.1, high risk 0.2. |
| SquadScores.NothingScores | app/agents/skills.py:210-235 | Without skill, tool, domain, reviewer and fit a low-risk unit scores nothing. |
| SquadScores.ScoreIs | app/agents/skills.py:233 | A recorded score is the exact one in millionths, to the nearest, of two equally near the even one. |
| SquadScores.InsiderIsChosen | app/agents/skills.py:284-357 | Of two agents alike but for the unit's domain, the one inside scores 0.60 against 0.45 and gets the unit. |
| SquadScores.ReviewersAre | app/agents/skills.py:179-187 | The reviewers are the refs other than the builder's under which one of the unit's skills can be reviewed, in order. |
| SquadScores.FirstReviewersAre | app/agents/skills.py:340-343 | A slot takes the first two reviewers of a unit at most. |
| SquadScores.CandidatesAre | app/agents/skills.py:307-312 | The candidates provide a required skill and come in ref order, all of them or the first 32. |
| SquadScores.InputsAccepted | app/agents/skills.py:238-281 | When the inputs are accepted, bound by bound. |
| SquadScores.MissingMeans | app/agents/skills.py:286-353 | A skill is reported missing exactly if a unit requires it and no agent provides it, and as lacking a reviewer exactly if it is one of a unit whose agent nobody else can review; each once. |
| SquadScores.PlanRecords | app/agents/skills.py:295-331 | A plan has a row for every candidate of every unit, with its score, and no other; each missing skill has the request of its kind. |
| Learning.ValidatorIsTheChecks | app/ecosystem/learning.py:205-254 | The validator accepts exactly the rows that the bucket table's CHECKs accept. |
| Learning.SourceRowsAreTheUniverse | app/ecosystem/learning_sql.py:33-203 | Where a project fixes its tenant, the seven queries return 62 rows, the k-th for the k-th key, and every one passes the CHECKs. |
| Learning.SnapshotHoldsEachKeyOnce | app/ecosystem/learning_ddl.py:52-72 | A committed snapshot holds every key of every class exactly once. |
| Learning.SourceRowsAreASnapshot | app/ecosystem/learning_publish.py:24-33 | What the publisher reads, each query at a moment of its own, is such a snapshot. |
| LearningRows.RowMeans | app/ecosystem/learning_sql.py:33-203 | A row counts the rows of its source table under its key and their distinct projects and tenants; its metric counts failed evaluations and denied calls, and only those two classes and cost and latency have one, given an event. |
| LearningRows.AmountAdds | app/ecosystem/learning_sql.py:72-108 | One more cost or latency row adds its amount to the metric of its own key and to no other. |
| Optimizer.EvaluateRecommendation | app/ecosystem/cost_optimizer.py:132-157 | The evaluation fails exactly on an unknown task, risk or tool, and otherwise is the recommendation the searches determine. |
| Optimizer.RecommendationCanBeStored | app/ecosystem/learning_db_checks.py:114-160 | Over the buckets of any aggregate run, or of none, the recommendation's row passes the CHECKs and its citations the citation guard. |
| Optimizer.DenyHitMeans | app/ecosystem/cost_optimizer.py:215-228 | Below four times ten to the 21 calls the rounded quotient holds a tool exactly when half or more of its calls were denied. |
| Optimizer.ReworkHeavyMeans | app/ecosystem/cost_optimizer.py:231-246 | The rounded means bump a tier whenever the exact rework mean is at least the exact inference mean, and only then if the inference sum times the rework count has at most 27 digits. |
| Optimizer.FloorsHold | app/ecosystem/cost_optimizer.py:183-198 | Work with a floor is held or recommended at its floor or above. |
| Optimizer.RecommendationIgnoresOrder | app/ecosystem/cost_optimizer.py:215-258 | With at most one bucket per class and key the order of the buckets does not matter. |
| OptimizerRules.BaseMeans | app/ecosystem/cost_optimizer.py:35-45 | The policy tier of each task, and the higher one for an ambiguous document classification. |
| OptimizerRules.ClampMeans | app/ecosystem/cost_optimizer.py:183-198 | The clamped tier, task by task, for cheap first at low risk, frontier first at high risk, and otherwise. |
| OptimizerRules.TierSteps | app/ecosystem/cost_optimizer.py:166-174 | A tier goes one down or up, and no further than the ends. |
| OptimizerRules.OverlayMeans | app/ecosystem/cost_optimizer.py:201-212 | Which overlay applies, when the advice is to hold, and that heavy rework raises a review by one tier. |
| OptimizerRules.CitationsMean | app/ecosystem/cost_optimizer.py:215-258 | The cited buckets are the first that denies the tool, or the first rework and inference rows; cache hint and reviewer demands are as flagged. |
| OptimizerRules.InputMeans | app/ecosystem/cost_optimizer.py:132-138 | An input is accepted exactly when task and risk are known and the tool, if any, is one of the thirteen. |

## Left out

- Sessions, tenant settings and row-level security: tenants are keys on rows and calls.
- HTTP routes, command-line scripts, migrations, downgrade refusals, audit events and LLM clients: no decision of their own.
- Digests and canonical JSON: the hashed material is compared instead of the hash.
- Policy writer: JSON nulls and non-objects in overrides, the smallint bound on the override count, savepoints, and writes by a database owner.
- Tenants, organizations and their suspension, the length and blank CHECKs of principals, and the unique key over grants beyond one grant per role: grants enter a run only by being granted and revoked.
- Rbac.AllowedMeansSufficientGrant: speaks of the grants at the moment of recording; a grant revoked afterwards does not undo a recorded action, in the code as in the model.
- Catalog adoptions, the text of delisting reasons, savepoints, statements that insert into several catalog tables at once, and the row locks taken by the foreign keys of listings and check results: for the locks, more interleavings are allowed than the database allows.
- CatalogPopulate.CatalogSession.PopulateTwice: nobody works beside the passes, and the row lock a vetting takes on its asset before its own trigger does is left to that trigger.
- CatalogPopulate.CatalogSession.PopulateDeclaredCatalog: after a refusal the session may hold partial rows, which its caller rolls back; text bounds and the tool registry are not checked again, and the five connector checks are an arbitrary function of the stored spec.
- Connector keys come in their sorted order as an argument; sorting them is not modelled.
- CostForecast: parsing of policy documents and of decimal text; a value offered as money is given as its millionths or as not being money, and event ids are numbered in the order of their text.
- The generated columns of the stored forecast and of stored qualification runs, the verdict column included: their division scale is the database's own.
- Decimals.Quotient: quotients of ten to the 28 and more would need a negative scale; no caller here reaches one.
- Squad: float effects in scores (scores are exact, then rounded to six places, ties to even), the patterns of keys (a flag says whether they hold), the order of the active agents, and the manifest size limit.
- Learning: bucket keys are positions in the list of their class, so the text prefixes that tell cost from latency keys are positions too; the three connector tables have separate keys by construction.
- Learning: the trigger that compares stored counts with the queries once more, and the publication threshold.
- Optimizer: policy version lookups, the published-count guard, and sums so large that distinct means tie after rounding.
- Findings and readiness: artifact titles and bodies, summaries as text, and the provenance of declarations.
- Agent factory, failure prescriptions, registry tables and other small enumerations: finite tables that settle themselves.
