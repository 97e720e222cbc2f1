/** What every step of the policy writer keeps. */
module PolicyWriterInvariant {
  import opened Options
  import opened Overrides
  import opened Rbac
  import opened PolicyWriter

  // ---- ledger rows as an account of one policy row ----

  // What the ledger says about a policy row: its id, level, override count and number of writes.
  datatype Stamp = Stamp(id: nat, level: int, keyCount: nat, writes: nat)

  function StampOf(p: Option<Policy>): Option<Stamp> {
    if p.None? then None else Some(Stamp(p.value.id, p.value.level, |p.value.overrides|, p.value.writes))
  }

  function StampLevel(p: Option<Stamp>): Option<int> {
    if p.None? then None else Some(p.value.level)
  }

  function After(p: Option<Stamp>, row: LedgerRow): Option<Stamp> {
    Some(Stamp(row.policyId, row.level, row.keyCount, (if p.None? then 0 else p.value.writes) + 1))
  }

  function Replay(p: Option<Stamp>, rows: seq<LedgerRow>): Option<Stamp> {
    if rows == [] then p else After(Replay(p, rows[..|rows| - 1]), rows[|rows| - 1])
  }

  // The row continues the account: it names the level before it, and the same policy row.
  ghost predicate Continues(p: Option<Stamp>, row: LedgerRow) {
    row.previous == StampLevel(p) && (p.Some? ==> row.policyId == p.value.id)
  }

  ghost predicate Linked(p: Option<Stamp>, rows: seq<LedgerRow>) {
    rows == [] || (Linked(p, rows[..|rows| - 1]) && Continues(Replay(p, rows[..|rows| - 1]), rows[|rows| - 1]))
  }

  function RowsFor(ledger: seq<LedgerRow>, k: Key): seq<LedgerRow> {
    if ledger == [] then []
    else RowsFor(ledger[..|ledger| - 1], k) +
         (if ledger[|ledger| - 1].key == k then [ledger[|ledger| - 1]] else [])
  }

  lemma {:induction false} RowsForMembers(ledger: seq<LedgerRow>, k: Key)
    ensures forall r :: r in RowsFor(ledger, k) <==> r in ledger && r.key == k
  {
    if ledger != [] {
      RowsForMembers(ledger[..|ledger| - 1], k);
      assert ledger == ledger[..|ledger| - 1] + [ledger[|ledger| - 1]];
    }
  }

  lemma {:induction false} RowsForAppend(a: seq<LedgerRow>, b: seq<LedgerRow>, k: Key)
    ensures RowsFor(a + b, k) == RowsFor(a, k) + RowsFor(b, k)
  {
    if b == [] {
      assert a + b == a;
    } else {
      var init, last := b[..|b| - 1], b[|b| - 1];
      var tail := if last.key == k then [last] else [];
      RowsForAppend(a, init, k);
      assert (a + b)[..|a + b| - 1] == a + init;
      assert RowsFor(a + b, k) == RowsFor(a + init, k) + tail;
      assert RowsFor(b, k) == RowsFor(init, k) + tail;
      assert RowsFor(a, k) + RowsFor(init, k) + tail == RowsFor(a, k) + (RowsFor(init, k) + tail);
    }
  }

  lemma {:induction false} LinkedAppend(p: Option<Stamp>, a: seq<LedgerRow>, b: seq<LedgerRow>)
    ensures Replay(p, a + b) == Replay(Replay(p, a), b)
    ensures Linked(p, a + b) <==> Linked(p, a) && Linked(Replay(p, a), b)
  {
    if b == [] {
      assert a + b == a;
    } else {
      var init := b[..|b| - 1];
      LinkedAppend(p, a, init);
      assert (a + b)[..|a + b| - 1] == a + init;
    }
  }

  lemma LinkedSnoc(p: Option<Stamp>, rows: seq<LedgerRow>, row: LedgerRow)
    ensures Replay(p, rows + [row]) == After(Replay(p, rows), row)
    ensures Linked(p, rows + [row]) <==> Linked(p, rows) && Continues(Replay(p, rows), row)
  {
  }

  // ---- the invariant ----

  // The committed ledger accounts for the committed policy of every key.
  ghost predicate KeyAccounted(start: map<Key, Policy>, s: State, k: Key) {
    var rows := RowsFor(s.ledger, k);
    Linked(StampOf(PolicyAt(start, k)), rows)
    && StampOf(PolicyAt(s.policies, k)) == Replay(StampOf(PolicyAt(start, k)), rows)
  }

  // What the pending ledger rows of a transaction make of the committed policy.
  function Pending(s: State, t: Txn, k: Key): Option<Stamp> {
    Replay(StampOf(PolicyAt(s.policies, k)), RowsFor(t.ledger, k))
  }

  ghost predicate Owns(s: State, x: nat, k: Key) {
    k in s.locks && s.locks[k] == x
  }

  // A created row that has not been updated yet is not accounted for by any ledger row.
  ghost predicate JustCreated(s: State, t: Txn, k: Key) {
    k in t.policies && t.policies[k].writes == 0 && Pending(s, t, k).None?
  }

  // The visible policy is the pending account, and is a pending write only if a ledger row says so.
  ghost predicate Settled(s: State, t: Txn, k: Key) {
    StampOf(VisiblePolicy(s, t, k)) == Pending(s, t, k) && (k in t.policies ==> RowsFor(t.ledger, k) != [])
  }

  // Outside of a call, and for keys the call does not touch, the visible policy is settled.
  ghost predicate StageAccounted(s: State, x: nat, t: Txn, k: Key) {
    var e := Pending(s, t, k);
    var seen := VisiblePolicy(s, t, k);
    match t.stage
    case Relocking(c, true) =>
      if c.key == k then JustCreated(s, t, k) else Settled(s, t, k)
    case Updating(c, previous) =>
      if c.key == k then
        && Owns(s, x, k) && seen.Some? && previous == StampLevel(e)
        && (Settled(s, t, k) || JustCreated(s, t, k))
      else Settled(s, t, k)
    case Spending(c, previous) =>
      if c.key == k then
        && k in t.policies && previous == StampLevel(e)
        && StampOf(seen) == After(e, ChangeRow(c, previous, seen.value.id))
        && (e.Some? ==> seen.value.id == e.value.id)
      else Settled(s, t, k)
    case Failed(_) => true
    case _ => Settled(s, t, k)
  }

  ghost predicate TxnKey(s: State, x: nat, k: Key)
    requires x in s.txns
  {
    var t := s.txns[x];
    && (k in t.policies ==> Owns(s, x, k) && t.tenant == Some(k.tenant) && LevelOk(t.policies[k].level))
    && (RowsFor(t.ledger, k) != [] ==> k in t.policies)
    && Linked(StampOf(PolicyAt(s.policies, k)), RowsFor(t.ledger, k))
    && StageAccounted(s, x, t, k)
  }

  ghost predicate Authorizes(a: Option<ActionRow>, k: Key) {
    a.Some? && a.value.key == k && a.value.decision == Allowed
  }

  // The facts a call has established so far.
  ghost predicate CallOk(s: State, x: nat, t: Txn) {
    t.stage.Idle? || t.stage.Failed? ||
    var c := t.stage.call;
    && Authorizes(VisibleAction(s, t, c.action), c.key)
    && VisibleAction(s, t, c.action).value.kind == c.kind
    && t.tenant == Some(c.key.tenant)
    && ((t.stage.Inserting? || t.stage.Relocking?) ==> c.kind == SetAutonomyPolicy)
    && ((t.stage.Relocking? || t.stage.Spending?) ==> LevelOk(c.level))
    && (t.stage.Inserting? ==> c.key !in t.policies)
    && (t.stage.Relocking? && !t.stage.created ==> c.key in s.policies)
    && (c.kind == TightenAutonomyOverrides && (t.stage.Updating? || t.stage.Spending?) ==>
        t.stage.previous == Some(c.level))
  }

  ghost predicate RowAuthorized(s: State, t: Txn, r: LedgerRow) {
    Authorizes(VisibleAction(s, t, r.action), r.key)
  }

  ghost predicate DistinctActions(ledger: seq<LedgerRow>) {
    forall i, j :: 0 <= i < j < |ledger| ==> ledger[i].action != ledger[j].action
  }

  ghost predicate LedgerLevelsOk(ledger: seq<LedgerRow>) {
    forall r :: r in ledger ==> LevelOk(r.level)
  }

  ghost predicate TxnOk(s: State, x: nat)
    requires x in s.txns
  {
    var t := s.txns[x];
    && CallOk(s, x, t)
    && (forall k :: TxnKey(s, x, k))
    && (forall r :: r in t.ledger ==> RowAuthorized(s, t, r))
    && LedgerLevelsOk(t.ledger)
    && DistinctActions(s.ledger + t.ledger)
    && t.actions.Keys !! s.actions.Keys
    && (forall id :: id in t.actions ==> t.tenant == Some(t.actions[id].key.tenant))
  }

  ghost predicate Inv(start: map<Key, Policy>, s: State) {
    && (forall k :: KeyAccounted(start, s, k))
    && (forall k :: k in s.policies ==> LevelOk(s.policies[k].level))
    && (forall r :: r in s.ledger ==> r.action in s.actions && Authorizes(Some(s.actions[r.action]), r.key))
    && DistinctActions(s.ledger)
    && (forall x :: x in s.txns ==> TxnOk(s, x))
    && (forall x, y :: x in s.txns && y in s.txns && x != y ==> s.txns[x].actions.Keys !! s.txns[y].actions.Keys)
    && (forall k :: k in s.locks ==> s.locks[k] in s.txns)
  }

  // ---- steps that write nothing of their own ----

  lemma InitialInv(s: State)
    requires Initial(s)
    ensures Inv(s.policies, s)
  {
  }

  // A transaction other than x keeps its facts when the committed tables stay, and it keeps its locks.
  lemma OtherTxn(s: State, s': State, y: nat)
    requires y in s.txns && y in s'.txns && s'.txns[y] == s.txns[y]
    requires TxnOk(s, y)
    requires s'.policies == s.policies && s'.actions == s.actions && s'.ledger == s.ledger
    requires forall k :: Owns(s, y, k) ==> Owns(s', y, k)
    ensures TxnOk(s', y)
  {
    forall k ensures TxnKey(s', y, k) {
      assert TxnKey(s, y, k);
    }
    forall r | r in s'.txns[y].ledger ensures RowAuthorized(s', s'.txns[y], r) {
      assert RowAuthorized(s, s.txns[y], r);
    }
  }

  function Put(s: State, x: nat, t: Txn, locks: map<Key, nat>): State {
    s.(txns := s.txns[x := t], locks := locks)
  }

  // Transaction x changes, and may take locks that nobody else holds.
  ghost predicate Takes(s: State, x: nat, locks: map<Key, nat>) {
    && (forall k :: k in locks ==> locks[k] == x || (k in s.locks && s.locks[k] == locks[k]))
    && (forall k :: k in s.locks && s.locks[k] != x ==> k in locks && locks[k] == s.locks[k])
  }

  lemma LocalStep(start: map<Key, Policy>, s: State, x: nat, t: Txn, locks: map<Key, nat>)
    requires Inv(start, s)
    requires Takes(s, x, locks)
    requires TxnOk(Put(s, x, t, locks), x)
    requires forall y :: y in s.txns && y != x ==> t.actions.Keys !! s.txns[y].actions.Keys
    ensures Inv(start, Put(s, x, t, locks))
  {
    var s' := Put(s, x, t, locks);
    forall y | y in s'.txns ensures TxnOk(s', y) {
      if y != x {
        OtherTxn(s, s', y);
      }
    }
    forall k ensures KeyAccounted(start, s', k) {
      assert KeyAccounted(start, s, k);
    }
  }

  // A transaction that recorded and spent nothing: the rest follows from its keys and its call.
  lemma QuietTxn(s: State, x: nat, t: Txn, locks: map<Key, nat>)
    requires x in s.txns && TxnOk(s, x)
    requires t.tenant == s.txns[x].tenant && t.actions == s.txns[x].actions && t.ledger == s.txns[x].ledger
    requires CallOk(Put(s, x, t, locks), x, t)
    requires forall k :: TxnKey(Put(s, x, t, locks), x, k)
    ensures TxnOk(Put(s, x, t, locks), x)
  {
    forall r | r in t.ledger ensures RowAuthorized(Put(s, x, t, locks), t, r) {
      assert RowAuthorized(s, s.txns[x], r);
    }
  }

  // ---- entering a call, recording an action ----

  lemma EnterInv(start: map<Key, Policy>, s: State, x: nat, action: nat, project: nat, level: int,
                 m: Option<OverrideMap>)
    requires Inv(start, s)
    requires Enabled(s, Enter(x, action, project, level, m))
    ensures Inv(start, Step(s, Enter(x, action, project, level, m)))
  {
    var t' := s.txns[x].(stage := EnterStage(s, s.txns[x], action, project, level, m));
    assert TxnOk(s, x);
    forall k ensures TxnKey(Put(s, x, t', s.locks), x, k) {
      assert TxnKey(s, x, k);
    }
    QuietTxn(s, x, t', s.locks);
    LocalStep(start, s, x, t', s.locks);
  }

  lemma RecordInv(start: map<Key, Policy>, s: State, x: nat, id: nat, row: ActionRow)
    requires Inv(start, s)
    requires Enabled(s, Record(x, id, row))
    ensures Inv(start, Step(s, Record(x, id, row)))
  {
    var t' := s.txns[x].(actions := s.txns[x].actions[id := row]);
    var s' := Put(s, x, t', s.locks);
    assert TxnOk(s, x);
    forall k ensures TxnKey(s', x, k) {
      assert TxnKey(s, x, k);
    }
    forall r | r in t'.ledger ensures RowAuthorized(s', t', r) {
      assert RowAuthorized(s, s.txns[x], r);
    }
    LocalStep(start, s, x, t', s.locks);
  }

  // ---- the statements of a call ----

  function LocksAfter(s: State, x: nat, effect: Effect): map<Key, nat>
    requires x in s.txns && InCall(s.txns[x])
  {
    Apply(s, x, effect).locks
  }

  lemma ProbeKey(s: State, x: nat, k: Key)
    requires x in s.txns && s.txns[x].stage.Probing? && Ready(s, x)
    requires CallOk(s, x, s.txns[x])
    requires TxnKey(s, x, k) && TxnKey(s, x, s.txns[x].stage.call.key)
    requires forall j :: j in s.policies ==> LevelOk(s.policies[j].level)
    ensures TxnKey(Apply(s, x, ProbeStatement(s, s.txns[x])), x, k)
  {
  }

  lemma ProbeCall(s: State, x: nat)
    requires x in s.txns && s.txns[x].stage.Probing? && Ready(s, x)
    requires CallOk(s, x, s.txns[x])
    requires TxnKey(s, x, s.txns[x].stage.call.key)
    ensures CallOk(Apply(s, x, ProbeStatement(s, s.txns[x])), x, ProbeStatement(s, s.txns[x]).txn)
    ensures Takes(s, x, LocksAfter(s, x, ProbeStatement(s, s.txns[x])))
  {
  }

  lemma ProbeOk(s: State, x: nat)
    requires x in s.txns && s.txns[x].stage.Probing? && Ready(s, x)
    requires TxnOk(s, x)
    requires forall j :: j in s.policies ==> LevelOk(s.policies[j].level)
    ensures TxnOk(Apply(s, x, ProbeStatement(s, s.txns[x])), x)
    ensures Takes(s, x, LocksAfter(s, x, ProbeStatement(s, s.txns[x])))
    ensures ProbeStatement(s, s.txns[x]).txn.actions == s.txns[x].actions
  {
    var effect := ProbeStatement(s, s.txns[x]);
    assert TxnKey(s, x, s.txns[x].stage.call.key);
    ProbeCall(s, x);
    forall k ensures TxnKey(Apply(s, x, effect), x, k) {
      assert TxnKey(s, x, k);
      ProbeKey(s, x, k);
    }
    QuietTxn(s, x, effect.txn, LocksAfter(s, x, effect));
  }

  lemma InsertKey(s: State, x: nat, freshId: nat, k: Key)
    requires x in s.txns && s.txns[x].stage.Inserting? && Ready(s, x)
    requires CallOk(s, x, s.txns[x])
    requires TxnKey(s, x, k) && TxnKey(s, x, s.txns[x].stage.call.key)
    requires forall j :: j in s.policies ==> LevelOk(s.policies[j].level)
    ensures TxnKey(Apply(s, x, InsertStatement(s, s.txns[x], freshId)), x, k)
  {
  }

  lemma InsertCall(s: State, x: nat, freshId: nat)
    requires x in s.txns && s.txns[x].stage.Inserting? && Ready(s, x)
    requires CallOk(s, x, s.txns[x])
    requires TxnKey(s, x, s.txns[x].stage.call.key)
    ensures CallOk(Apply(s, x, InsertStatement(s, s.txns[x], freshId)), x, InsertStatement(s, s.txns[x], freshId).txn)
    ensures Takes(s, x, LocksAfter(s, x, InsertStatement(s, s.txns[x], freshId)))
  {
  }

  lemma InsertOk(s: State, x: nat, freshId: nat)
    requires x in s.txns && s.txns[x].stage.Inserting? && Ready(s, x)
    requires TxnOk(s, x)
    requires forall j :: j in s.policies ==> LevelOk(s.policies[j].level)
    ensures TxnOk(Apply(s, x, InsertStatement(s, s.txns[x], freshId)), x)
    ensures Takes(s, x, LocksAfter(s, x, InsertStatement(s, s.txns[x], freshId)))
    ensures InsertStatement(s, s.txns[x], freshId).txn.actions == s.txns[x].actions
  {
    var effect := InsertStatement(s, s.txns[x], freshId);
    assert TxnKey(s, x, s.txns[x].stage.call.key);
    InsertCall(s, x, freshId);
    forall k ensures TxnKey(Apply(s, x, effect), x, k) {
      assert TxnKey(s, x, k);
      InsertKey(s, x, freshId, k);
    }
    QuietTxn(s, x, effect.txn, LocksAfter(s, x, effect));
  }

  lemma RelockKey(s: State, x: nat, k: Key)
    requires x in s.txns && s.txns[x].stage.Relocking? && Ready(s, x)
    requires CallOk(s, x, s.txns[x])
    requires TxnKey(s, x, k) && TxnKey(s, x, s.txns[x].stage.call.key)
    requires forall j :: j in s.policies ==> LevelOk(s.policies[j].level)
    ensures TxnKey(Apply(s, x, RelockStatement(s, s.txns[x])), x, k)
  {
  }

  lemma RelockCall(s: State, x: nat)
    requires x in s.txns && s.txns[x].stage.Relocking? && Ready(s, x)
    requires CallOk(s, x, s.txns[x])
    requires TxnKey(s, x, s.txns[x].stage.call.key)
    ensures CallOk(Apply(s, x, RelockStatement(s, s.txns[x])), x, RelockStatement(s, s.txns[x]).txn)
    ensures Takes(s, x, LocksAfter(s, x, RelockStatement(s, s.txns[x])))
  {
  }

  lemma RelockOk(s: State, x: nat)
    requires x in s.txns && s.txns[x].stage.Relocking? && Ready(s, x)
    requires TxnOk(s, x)
    requires forall j :: j in s.policies ==> LevelOk(s.policies[j].level)
    ensures TxnOk(Apply(s, x, RelockStatement(s, s.txns[x])), x)
    ensures Takes(s, x, LocksAfter(s, x, RelockStatement(s, s.txns[x])))
    ensures RelockStatement(s, s.txns[x]).txn.actions == s.txns[x].actions
  {
    var effect := RelockStatement(s, s.txns[x]);
    assert TxnKey(s, x, s.txns[x].stage.call.key);
    RelockCall(s, x);
    forall k ensures TxnKey(Apply(s, x, effect), x, k) {
      assert TxnKey(s, x, k);
      RelockKey(s, x, k);
    }
    QuietTxn(s, x, effect.txn, LocksAfter(s, x, effect));
  }

  lemma UpdateKey(s: State, x: nat, k: Key)
    requires x in s.txns && s.txns[x].stage.Updating? && Ready(s, x)
    requires CallOk(s, x, s.txns[x])
    requires TxnKey(s, x, k) && TxnKey(s, x, s.txns[x].stage.call.key)
    requires forall j :: j in s.policies ==> LevelOk(s.policies[j].level)
    ensures TxnKey(Apply(s, x, UpdateStatement(s, s.txns[x])), x, k)
  {
  }

  lemma UpdateCall(s: State, x: nat)
    requires x in s.txns && s.txns[x].stage.Updating? && Ready(s, x)
    requires CallOk(s, x, s.txns[x])
    requires TxnKey(s, x, s.txns[x].stage.call.key)
    ensures CallOk(Apply(s, x, UpdateStatement(s, s.txns[x])), x, UpdateStatement(s, s.txns[x]).txn)
    ensures Takes(s, x, LocksAfter(s, x, UpdateStatement(s, s.txns[x])))
  {
  }

  lemma UpdateOk(s: State, x: nat)
    requires x in s.txns && s.txns[x].stage.Updating? && Ready(s, x)
    requires TxnOk(s, x)
    requires forall j :: j in s.policies ==> LevelOk(s.policies[j].level)
    ensures TxnOk(Apply(s, x, UpdateStatement(s, s.txns[x])), x)
    ensures Takes(s, x, LocksAfter(s, x, UpdateStatement(s, s.txns[x])))
    ensures UpdateStatement(s, s.txns[x]).txn.actions == s.txns[x].actions
  {
    var effect := UpdateStatement(s, s.txns[x]);
    assert TxnKey(s, x, s.txns[x].stage.call.key);
    UpdateCall(s, x);
    forall k ensures TxnKey(Apply(s, x, effect), x, k) {
      assert TxnKey(s, x, k);
      UpdateKey(s, x, k);
    }
    QuietTxn(s, x, effect.txn, LocksAfter(s, x, effect));
  }

  // ---- spending ----

  // Every level a replay ends at is the level of the committed row or of a ledger row of the transaction.
  lemma PreviousLevelOk(s: State, x: nat, k: Key)
    requires x in s.txns && TxnKey(s, x, k) && s.txns[x].stage.Spending? && s.txns[x].stage.call.key == k
    requires forall j :: j in s.policies ==> LevelOk(s.policies[j].level)
    requires LedgerLevelsOk(s.txns[x].ledger)
    ensures s.txns[x].stage.previous.Some? ==> LevelOk(s.txns[x].stage.previous.value)
  {
    var rows := RowsFor(s.txns[x].ledger, k);
    if rows != [] {
      RowsForMembers(s.txns[x].ledger, k);
      assert rows[|rows| - 1] in s.txns[x].ledger;
    }
  }

  /** At the spend the policy row is there, the ledger guard passes and its CHECKs hold. */
  lemma GuardNeverTrips(s: State, x: nat)
    requires x in s.txns && TxnOk(s, x) && s.txns[x].stage.Spending?
    requires forall j :: j in s.policies ==> LevelOk(s.policies[j].level)
    ensures var t, c := s.txns[x], s.txns[x].stage.call;
            var policy := VisiblePolicy(s, t, c.key);
            policy.Some?
            && LedgerGuard(s, t, ChangeRow(c, t.stage.previous, policy.value.id)).None?
            && ChangeChecks(ChangeRow(c, t.stage.previous, policy.value.id))
  {
    var c := s.txns[x].stage.call;
    assert TxnKey(s, x, c.key);
    PreviousLevelOk(s, x, c.key);
  }

  lemma RowsForSnoc(ledger: seq<LedgerRow>, row: LedgerRow, k: Key)
    ensures RowsFor(ledger + [row], k) == if row.key == k then RowsFor(ledger, k) + [row] else RowsFor(ledger, k)
  {
  }

  lemma SpendOwnKey(s: State, x: nat, row: LedgerRow)
    requires x in s.txns && s.txns[x].stage.Spending?
    requires TxnKey(s, x, row.key)
    requires var t, c := s.txns[x], s.txns[x].stage.call;
             c.key == row.key && VisiblePolicy(s, t, c.key).Some?
             && row == ChangeRow(c, t.stage.previous, VisiblePolicy(s, t, c.key).value.id)
    ensures TxnKey(Put(s, x, Spend(s.txns[x], row), s.locks), x, row.key)
  {
    RowsForSnoc(s.txns[x].ledger, row, row.key);
    LinkedSnoc(StampOf(PolicyAt(s.policies, row.key)), RowsFor(s.txns[x].ledger, row.key), row);
    hide RowsFor, Linked, Replay;
  }

  lemma SpendKey(s: State, x: nat, row: LedgerRow, k: Key)
    requires x in s.txns && s.txns[x].stage.Spending?
    requires TxnKey(s, x, k) && TxnKey(s, x, row.key)
    requires var t, c := s.txns[x], s.txns[x].stage.call;
             c.key == row.key && VisiblePolicy(s, t, c.key).Some?
             && row == ChangeRow(c, t.stage.previous, VisiblePolicy(s, t, c.key).value.id)
    ensures TxnKey(Put(s, x, Spend(s.txns[x], row), s.locks), x, k)
  {
    if k == row.key {
      SpendOwnKey(s, x, row);
    } else {
      RowsForSnoc(s.txns[x].ledger, row, k);
      hide RowsFor, Linked, Replay;
    }
  }

  lemma DistinctSnoc(ledger: seq<LedgerRow>, row: LedgerRow)
    requires DistinctActions(ledger) && !Spent(ledger, row.action)
    ensures DistinctActions(ledger + [row])
  {
  }

  lemma SpentRowTxn(s: State, x: nat, row: LedgerRow)
    requires x in s.txns && TxnOk(s, x) && s.txns[x].stage.Spending?
    requires !Spent(s.ledger, row.action) && !Spent(s.txns[x].ledger, row.action)
    requires var t, c := s.txns[x], s.txns[x].stage.call;
             VisiblePolicy(s, t, c.key).Some?
             && row == ChangeRow(c, t.stage.previous, VisiblePolicy(s, t, c.key).value.id)
    ensures TxnOk(Put(s, x, Spend(s.txns[x], row), s.locks), x)
  {
    var t, c := s.txns[x], s.txns[x].stage.call;
    var t' := Spend(t, row);
    var s' := Put(s, x, t', s.locks);
    forall k ensures TxnKey(s', x, k) {
      assert TxnKey(s, x, k) && TxnKey(s, x, row.key);
      SpendKey(s, x, row, k);
    }
    forall r | r in t'.ledger ensures RowAuthorized(s', t', r) {
      assert r == row || RowAuthorized(s, t, r);
    }
    DistinctSnoc(s.ledger + t.ledger, row);
    assert s.ledger + t'.ledger == s.ledger + t.ledger + [row];
  }

  lemma SpendOk(s: State, x: nat)
    requires x in s.txns && TxnOk(s, x) && s.txns[x].stage.Spending?
    requires forall j :: j in s.policies ==> LevelOk(s.policies[j].level)
    ensures TxnOk(Apply(s, x, SpendStatement(s, s.txns[x])), x)
    ensures Takes(s, x, LocksAfter(s, x, SpendStatement(s, s.txns[x])))
    ensures SpendStatement(s, s.txns[x]).txn.stage in {Idle, Failed(ActionAlreadySpent)}
    ensures SpendStatement(s, s.txns[x]).txn.actions == s.txns[x].actions
  {
    var t, c := s.txns[x], s.txns[x].stage.call;
    GuardNeverTrips(s, x);
    if Spent(s.ledger, c.action) || Spent(t.ledger, c.action) {
      var t' := t.(stage := Failed(ActionAlreadySpent));
      forall k ensures TxnKey(Put(s, x, t', s.locks), x, k) {
        assert TxnKey(s, x, k);
      }
      QuietTxn(s, x, t', s.locks);
    } else {
      SpentRowTxn(s, x, ChangeRow(c, t.stage.previous, VisiblePolicy(s, t, c.key).value.id));
    }
  }

  lemma StatementOk(s: State, x: nat, freshId: nat)
    requires x in s.txns && Ready(s, x) && TxnOk(s, x)
    requires forall j :: j in s.policies ==> LevelOk(s.policies[j].level)
    ensures TxnOk(Apply(s, x, Statement(s, s.txns[x], freshId)), x)
    ensures Takes(s, x, LocksAfter(s, x, Statement(s, s.txns[x], freshId)))
    ensures Statement(s, s.txns[x], freshId).txn.actions == s.txns[x].actions
  {
    hide TxnOk, Takes, LocksAfter, Apply, ProbeStatement, InsertStatement, RelockStatement, UpdateStatement;
    match s.txns[x].stage
    case Probing(_) => ProbeOk(s, x);
    case Inserting(_) => InsertOk(s, x, freshId);
    case Relocking(_, _) => RelockOk(s, x);
    case Updating(_, _) => UpdateOk(s, x);
    case Spending(_, _) => SpendOk(s, x);
  }

  lemma StatementInv(start: map<Key, Policy>, s: State, x: nat, freshId: nat)
    requires Inv(start, s)
    requires x in s.txns && Ready(s, x)
    ensures Inv(start, Apply(s, x, Statement(s, s.txns[x], freshId)))
  {
    hide Statement;
    StatementOk(s, x, freshId);
    var effect := Statement(s, s.txns[x], freshId);
    LocalStep(start, s, x, effect.txn, LocksAfter(s, x, effect));
  }

  // ---- the ends of a transaction ----

  lemma BeginInv(start: map<Key, Policy>, s: State, x: nat, tenant: Option<nat>)
    requires Inv(start, s)
    requires Enabled(s, Begin(x, tenant))
    ensures Inv(start, Step(s, Begin(x, tenant)))
  {
    var t' := Txn(tenant, Idle, map[], map[], []);
    assert s.ledger + [] == s.ledger;
    LocalStep(start, s, x, t', s.locks);
  }

  lemma AbortInv(start: map<Key, Policy>, s: State, x: nat)
    requires Inv(start, s)
    requires Enabled(s, Abort(x))
    ensures Inv(start, Step(s, Abort(x)))
  {
    var s' := Step(s, Abort(x));
    forall y | y in s'.txns ensures TxnOk(s', y) {
      OtherTxn(s, s', y);
    }
    forall k ensures KeyAccounted(start, s', k) {
      assert KeyAccounted(start, s, k);
    }
  }

  lemma PendingRowOwned(s: State, x: nat, r: LedgerRow)
    requires x in s.txns && TxnOk(s, x)
    requires r in s.txns[x].ledger
    ensures Owns(s, x, r.key)
  {
    RowsForMembers(s.txns[x].ledger, r.key);
    assert r in RowsFor(s.txns[x].ledger, r.key);
    assert TxnKey(s, x, r.key);
  }

  // A pending row of x and one of y cannot spend one action: only one of them holds its project.
  lemma PendingSpendsDiffer(start: map<Key, Policy>, s: State, x: nat, y: nat, r: LedgerRow, q: LedgerRow)
    requires Inv(start, s)
    requires x in s.txns && y in s.txns && x != y
    requires r in s.txns[x].ledger && q in s.txns[y].ledger
    ensures r.action != q.action
  {
    PendingRowOwned(s, x, r);
    PendingRowOwned(s, y, q);
    assert RowAuthorized(s, s.txns[x], r) && RowAuthorized(s, s.txns[y], q);
  }

  lemma CommitDistinct(start: map<Key, Policy>, s: State, x: nat, y: nat)
    requires Inv(start, s)
    requires x in s.txns && y in s.txns && x != y
    ensures DistinctActions(s.ledger + s.txns[x].ledger + s.txns[y].ledger)
  {
    var a, b, c := s.ledger, s.txns[x].ledger, s.txns[y].ledger;
    assert TxnOk(s, x) && TxnOk(s, y);
    forall i, j | 0 <= i < j < |a + b + c| ensures (a + b + c)[i].action != (a + b + c)[j].action {
      if |a| <= i < |a| + |b| <= j {
        PendingSpendsDiffer(start, s, x, y, b[i - |a|], c[j - |a| - |b|]);
      } else if i < |a| && |a| + |b| <= j {
        assert (a + c)[i].action != (a + c)[j - |b|].action;
      } else if |a| + |b| <= i {
        assert (a + c)[i - |b|].action != (a + c)[j - |b|].action;
      } else {
        assert (a + b)[i].action != (a + b)[j].action;
      }
    }
  }

  lemma CommitKey(s: State, x: nat, y: nat, k: Key)
    requires x in s.txns && y in s.txns && x != y
    requires TxnKey(s, x, k) && TxnKey(s, y, k)
    ensures TxnKey(StepCommit(s, x), y, k)
  {
    if k in s.txns[x].policies {
      assert k !in s.txns[y].policies;
    }
  }

  lemma CommitOther(start: map<Key, Policy>, s: State, x: nat, y: nat)
    requires Inv(start, s)
    requires Enabled(s, Commit(x))
    requires y in s.txns && x != y
    ensures TxnOk(StepCommit(s, x), y)
  {
    var s' := StepCommit(s, x);
    var t := s.txns[y];
    assert TxnOk(s, x) && TxnOk(s, y);
    assert forall id :: VisibleAction(s, t, id).Some? ==> VisibleAction(s', t, id) == VisibleAction(s, t, id);
    forall k ensures TxnKey(s', y, k) {
      assert TxnKey(s, x, k) && TxnKey(s, y, k);
      CommitKey(s, x, y, k);
    }
    forall r | r in t.ledger ensures RowAuthorized(s', t, r) {
      assert RowAuthorized(s, t, r);
    }
    CommitDistinct(start, s, x, y);
  }

  lemma CommitAccounted(start: map<Key, Policy>, s: State, x: nat, k: Key)
    requires KeyAccounted(start, s, k)
    requires Enabled(s, Commit(x))
    requires TxnKey(s, x, k)
    ensures KeyAccounted(start, StepCommit(s, x), k)
  {
    RowsForAppend(s.ledger, s.txns[x].ledger, k);
    LinkedAppend(StampOf(PolicyAt(start, k)), RowsFor(s.ledger, k), RowsFor(s.txns[x].ledger, k));
  }

  lemma CommitInv(start: map<Key, Policy>, s: State, x: nat)
    requires Inv(start, s)
    requires Enabled(s, Commit(x))
    ensures Inv(start, StepCommit(s, x))
  {
    var s' := StepCommit(s, x);
    var t := s.txns[x];
    assert TxnOk(s, x);
    forall y | y in s'.txns ensures TxnOk(s', y) {
      CommitOther(start, s, x, y);
    }
    forall k ensures KeyAccounted(start, s', k) {
      assert KeyAccounted(start, s, k) && TxnKey(s, x, k);
      CommitAccounted(start, s, x, k);
    }
    forall k | k in s'.policies ensures LevelOk(s'.policies[k].level) {
      assert TxnKey(s, x, k);
    }
    forall r | r in s'.ledger ensures r.action in s'.actions && Authorizes(Some(s'.actions[r.action]), r.key) {
      if r in t.ledger {
        assert RowAuthorized(s, t, r);
      }
    }
  }

  /** Every step of every interleaving keeps the invariant. */
  lemma StepInv(start: map<Key, Policy>, s: State, e: Event)
    requires Inv(start, s)
    requires Enabled(s, e)
    ensures Inv(start, Step(s, e))
  {
    match e
    case Grant(g) => GrantsDoNotMatter(start, s, Step(s, e));
    case Revoke(i) => GrantsDoNotMatter(start, s, Step(s, e));
    case Begin(x, tenant) => BeginInv(start, s, x, tenant);
    case Record(x, id, row) => RecordInv(start, s, x, id, row);
    case Enter(x, action, project, level, m) => EnterInv(start, s, x, action, project, level, m);
    case Proceed(x, freshId) => StatementInv(start, s, x, freshId);
    case Commit(x) => CommitInv(start, s, x);
    case Abort(x) => AbortInv(start, s, x);
  }

  lemma GrantsDoNotMatter(start: map<Key, Policy>, s: State, s': State)
    requires Inv(start, s)
    requires s' == s.(grants := s'.grants)
    ensures Inv(start, s')
  {
    forall y | y in s'.txns ensures TxnOk(s', y) {
      OtherTxn(s, s', y);
    }
    forall k ensures KeyAccounted(start, s', k) {
      assert KeyAccounted(start, s, k);
    }
  }
}
