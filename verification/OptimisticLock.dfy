/**
 * The optimistic account lock as a step machine: transactions read versions,
 * work on the rows their accounts own, update or touch every account they named
 * under its version, and commit. Every interleaving is equivalent to running the
 * committed transactions alone, in the order of their commits.
 */
module OptimisticLock {
  import opened Common

  type TxId = int

  datatype Value = Value(balance: int, hold: int)
  datatype Acc = Acc(value: Value, version: nat)

  /** A row that belongs to an account: a holding, an order, a position, a debt. */
  datatype OwnedKey = OwnedKey(owner: AccountId, name: int)

  datatype Tables = Tables(accounts: map<AccountId, Acc>, owned: map<OwnedKey, int>)

  /** What a transaction does, with what each read returned. */
  datatype Op =
    | ReadAccount(id: AccountId, acc: Acc)
    | ReadOwned(key: OwnedKey, found: Option<int>)
    | WriteOwned(key: OwnedKey, written: int)
    | Update(id: AccountId, value: Value)

  datatype Phase = Running | Committed | Aborted

  /**
   * `written` are the transaction's own uncommitted account rows; it holds their
   * locks. `since` is how many transactions had committed when a row was loaded.
   */
  datatype Tx = Tx(ids: set<AccountId>, trace: seq<Op>, loaded: map<AccountId, Acc>, since: map<AccountId, nat>,
                   written: map<AccountId, Acc>, phase: Phase)

  /** `log` keeps the committed transactions in commit order. */
  datatype State = State(tables: Tables, txs: map<TxId, Tx>, log: seq<Tx>)

  // ---------------------------------------------------------------- what a trace writes and what it read

  function OwnedWrites(trace: seq<Op>): map<OwnedKey, int> {
    if trace == [] then map[]
    else
      var before, last := OwnedWrites(trace[..|trace| - 1]), trace[|trace| - 1];
      if last.WriteOwned? then before[last.key := last.written] else before
  }

  function Updates(trace: seq<Op>): map<AccountId, Value> {
    if trace == [] then map[]
    else
      var before, last := Updates(trace[..|trace| - 1]), trace[|trace| - 1];
      if last.Update? then before[last.id := last.value] else before
  }

  function Lookup(owned: map<OwnedKey, int>, key: OwnedKey): Option<int> {
    if key in owned then Some(owned[key]) else None
  }

  /** What a transaction sees in a row: its own write, or what is committed. */
  function Seen(trace: seq<Op>, tables: Tables, key: OwnedKey): Option<int> {
    if key in OwnedWrites(trace) then Some(OwnedWrites(trace)[key]) else Lookup(tables.owned, key)
  }

  /** Run alone on these tables, every read of the trace returns what it returned. */
  predicate ReadsOk(trace: seq<Op>, tables: Tables) {
    trace == [] ||
    var before, last := trace[..|trace| - 1], trace[|trace| - 1];
    ReadsOk(before, tables) &&
    match last
    case ReadAccount(id, acc) => id in tables.accounts && tables.accounts[id] == acc
    case ReadOwned(key, found) => found == Seen(before, tables, key)
    case WriteOwned(_, _) => true
    case Update(_, _) => true
  }

  /** An account after a transaction ran alone: the last value it was given, and one version more if it was named. */
  function AloneAt(tables: Tables, tx: Tx, id: AccountId): Acc
    requires id in tables.accounts
  {
    if id !in tx.ids then tables.accounts[id]
    else Acc(if id in Updates(tx.trace) then Updates(tx.trace)[id] else tables.accounts[id].value, tables.accounts[id].version + 1)
  }

  predicate RanAlone(tables: Tables, tx: Tx, after: Tables) {
    && after.accounts.Keys == tables.accounts.Keys
    && (forall id :: id in tables.accounts ==> after.accounts[id] == AloneAt(tables, tx, id))
    && after.owned == tables.owned + OwnedWrites(tx.trace)
  }

  /** The tables a transaction leaves when it runs alone. */
  ghost function Apply(tables: Tables, tx: Tx): (after: Tables)
    ensures RanAlone(tables, tx, after)
  {
    assert exists after :: RanAlone(tables, tx, after) by {
      var accounts := map id | id in tables.accounts :: AloneAt(tables, tx, id);
      assert RanAlone(tables, tx, Tables(accounts, tables.owned + OwnedWrites(tx.trace)));
    }
    var after :| RanAlone(tables, tx, after);
    after
  }

  lemma OneOutcome(tables: Tables, tx: Tx, x: Tables, y: Tables)
    requires RanAlone(tables, tx, x) && RanAlone(tables, tx, y)
    ensures x == y
  {
    forall id | id in x.accounts
      ensures x.accounts[id] == y.accounts[id]
    {
      assert id in tables.accounts;
    }
    assert x.accounts == y.accounts;
  }

  /** The committed transactions run alone, one after the other. */
  ghost function Serial(initial: Tables, log: seq<Tx>): Tables {
    if log == [] then initial else Apply(Serial(initial, log[..|log| - 1]), log[|log| - 1])
  }

  /** Each of them would have read, alone at its place, exactly what it read. */
  ghost predicate SerialReads(initial: Tables, log: seq<Tx>) {
    log == [] ||
    (SerialReads(initial, log[..|log| - 1]) && ReadsOk(log[|log| - 1].trace, Serial(initial, log[..|log| - 1])))
  }

  // ---------------------------------------------------------------- steps

  datatype Step =
    | Begin(t: TxId, ids: set<AccountId>)
    | Load(t: TxId, id: AccountId)
    | Peek(t: TxId, key: OwnedKey)
    | Put(t: TxId, key: OwnedKey, written: int)
    | UpdateAccount(t: TxId, id: AccountId, value: Value)
    | Touch(t: TxId, id: AccountId)
    | Commit(t: TxId)
    | Abort(t: TxId)

  predicate IsRunning(s: State, t: TxId) {
    t in s.txs && s.txs[t].phase == Running
  }

  predicate AllLoaded(tx: Tx) {
    tx.loaded.Keys == tx.ids
  }

  /** No other transaction holds the account's row lock. */
  predicate LockFree(s: State, t: TxId, id: AccountId) {
    forall u :: u in s.txs && u != t && IsRunning(s, u) ==> id !in s.txs[u].written
  }

  predicate Enabled(s: State, step: Step) {
    match step
    case Begin(t, ids) => t !in s.txs
    case Load(t, id) => IsRunning(s, t) && id in s.txs[t].ids && id !in s.txs[t].loaded && id in s.tables.accounts
    case Peek(t, key) => IsRunning(s, t) && AllLoaded(s.txs[t]) && key.owner in s.txs[t].ids
    case Put(t, key, _) => IsRunning(s, t) && AllLoaded(s.txs[t]) && key.owner in s.txs[t].ids
    case UpdateAccount(t, id, _) => IsRunning(s, t) && AllLoaded(s.txs[t]) && id in s.txs[t].ids && LockFree(s, t, id)
    case Touch(t, id) => IsRunning(s, t) && AllLoaded(s.txs[t]) && id in s.txs[t].ids - s.txs[t].written.Keys && LockFree(s, t, id)
    case Commit(t) => IsRunning(s, t) && AllLoaded(s.txs[t]) && s.txs[t].written.Keys == s.txs[t].ids
    case Abort(t) => IsRunning(s, t)
  }

  /** The account row as the transaction sees it: its own uncommitted one, or the committed one. */
  function RowSeen(tables: Tables, tx: Tx, id: AccountId): Acc
    requires id in tables.accounts
  {
    if id in tx.written then tx.written[id] else tables.accounts[id]
  }

  /** The conditional update finds its row: the version it sees is the one it loaded. */
  predicate VersionHolds(s: State, tx: Tx, id: AccountId) {
    id in s.tables.accounts && id in tx.loaded && RowSeen(s.tables, tx, id).version == tx.loaded[id].version
  }

  /** The row after a conditional update: the given value, and the next version. */
  function Written(s: State, tx: Tx, id: AccountId, value: Value): map<AccountId, Acc>
    requires id in s.tables.accounts
  {
    tx.written[id := Acc(value, RowSeen(s.tables, tx, id).version + 1)]
  }

  function WithTx(s: State, t: TxId, tx: Tx): State {
    s.(txs := s.txs[t := tx])
  }

  function Next(s: State, step: Step): State
    requires Enabled(s, step)
  {
    match step
    case Begin(t, ids) => WithTx(s, t, Tx(ids, [], map[], map[], map[], Running))
    case Load(t, id) =>
      var tx := s.txs[t];
      WithTx(s, t, tx.(loaded := tx.loaded[id := s.tables.accounts[id]], since := tx.since[id := |s.log|],
                       trace := tx.trace + [ReadAccount(id, s.tables.accounts[id])]))
    case Peek(t, key) =>
      var tx := s.txs[t];
      WithTx(s, t, tx.(trace := tx.trace + [ReadOwned(key, Seen(tx.trace, s.tables, key))]))
    case Put(t, key, written) => WithTx(s, t, s.txs[t].(trace := s.txs[t].trace + [WriteOwned(key, written)]))
    case UpdateAccount(t, id, value) =>
      var tx := s.txs[t];
      if VersionHolds(s, tx, id) then WithTx(s, t, tx.(trace := tx.trace + [Update(id, value)], written := Written(s, tx, id, value)))
      else WithTx(s, t, tx.(phase := Aborted))
    case Touch(t, id) =>
      var tx := s.txs[t];
      if VersionHolds(s, tx, id) then WithTx(s, t, tx.(written := Written(s, tx, id, s.tables.accounts[id].value)))
      else WithTx(s, t, tx.(phase := Aborted))
    case Commit(t) =>
      var tx := s.txs[t].(phase := Committed);
      State(Tables(s.tables.accounts + tx.written, s.tables.owned + OwnedWrites(tx.trace)), s.txs[t := tx], s.log + [tx])
    case Abort(t) => WithTx(s, t, s.txs[t].(phase := Aborted))
  }

  predicate Runs(s: State, steps: seq<Step>)
    decreases steps
  {
    steps == [] || (Enabled(s, steps[0]) && Runs(Next(s, steps[0]), steps[1..]))
  }

  function After(s: State, steps: seq<Step>): State
    requires Runs(s, steps)
    decreases steps
  {
    if steps == [] then s else After(Next(s, steps[0]), steps[1..])
  }

  function Init(tables: Tables): State {
    State(tables, map[], [])
  }

  // ---------------------------------------------------------------- the invariant

  predicate NamesOnly(op: Op, ids: set<AccountId>) {
    match op
    case ReadAccount(id, _) => id in ids
    case ReadOwned(key, _) => key.owner in ids
    case WriteOwned(key, _) => key.owner in ids
    case Update(id, _) => id in ids
  }

  predicate TraceWithin(trace: seq<Op>, ids: set<AccountId>) {
    forall i :: 0 <= i < |trace| ==> NamesOnly(trace[i], ids)
  }

  predicate VersionsMatch(tx: Tx, tables: Tables) {
    forall id :: id in tx.loaded ==> id in tables.accounts && tables.accounts[id].version == tx.loaded[id].version
  }

  /** The rows a transaction wrote are what it would leave behind if it committed now. */
  predicate WrittenOk(tx: Tx, tables: Tables) {
    forall id :: id in tx.written ==>
      && id in tables.accounts && id in tx.loaded
      && tx.loaded[id].version == tables.accounts[id].version && tx.written[id].version == tx.loaded[id].version + 1
      && tx.written[id].value == if id in Updates(tx.trace) then Updates(tx.trace)[id] else tables.accounts[id].value
  }

  /** A running transaction whose versions still hold has read nothing that has changed since. */
  predicate TxOk(tx: Tx, tables: Tables) {
    && tx.loaded.Keys <= tx.ids && TraceWithin(tx.trace, tx.loaded.Keys) && WrittenOk(tx, tables)
    && (forall id :: id in Updates(tx.trace) ==> id in tx.written)
    && (forall id :: id in tx.loaded ==> id in tables.accounts && tx.loaded[id].version <= tables.accounts[id].version)
    && (VersionsMatch(tx, tables) ==> ReadsOk(tx.trace, tables))
  }

  ghost predicate LocksApart(s: State) {
    forall t, u :: t != u && IsRunning(s, t) && IsRunning(s, u) ==> s.txs[t].written.Keys !! s.txs[u].written.Keys
  }

  ghost predicate RunningOk(s: State) {
    forall t :: IsRunning(s, t) ==> TxOk(s.txs[t], s.tables)
  }

  ghost predicate Inv(s: State, initial: Tables) {
    RunningOk(s) && LocksApart(s) && s.tables == Serial(initial, s.log) && SerialReads(initial, s.log)
  }

  // ---------------------------------------------------------------- frames

  /** The two tables agree on these accounts and everything they own. */
  predicate AgreeOn(x: Tables, y: Tables, ids: set<AccountId>) {
    (forall id :: id in ids ==> (id in x.accounts <==> id in y.accounts) && (id in x.accounts ==> x.accounts[id] == y.accounts[id]))
  }

  ghost predicate AgreeOwned(x: Tables, y: Tables, ids: set<AccountId>) {
    forall key: OwnedKey :: key.owner in ids ==> Lookup(x.owned, key) == Lookup(y.owned, key)
  }

  lemma {:induction false} ReadsFrame(trace: seq<Op>, x: Tables, y: Tables, ids: set<AccountId>)
    requires TraceWithin(trace, ids) && AgreeOn(x, y, ids) && AgreeOwned(x, y, ids) && ReadsOk(trace, x)
    ensures ReadsOk(trace, y)
  {
    if trace != [] {
      var last := trace[|trace| - 1];
      assert NamesOnly(last, ids);
      ReadsFrame(trace[..|trace| - 1], x, y, ids);
    }
  }

  lemma {:induction false} WritesWithin(trace: seq<Op>, ids: set<AccountId>)
    requires TraceWithin(trace, ids)
    ensures forall key :: key in OwnedWrites(trace) ==> key.owner in ids
  {
    if trace != [] {
      assert NamesOnly(trace[|trace| - 1], ids);
      WritesWithin(trace[..|trace| - 1], ids);
    }
  }

  /** A commit changes nothing outside the accounts it named. */
  lemma ApplyFrame(tables: Tables, tx: Tx, others: set<AccountId>)
    requires TraceWithin(tx.trace, tx.ids) && others !! tx.ids
    ensures AgreeOn(tables, Apply(tables, tx), others) && AgreeOwned(tables, Apply(tables, tx), others)
  {
    WritesWithin(tx.trace, tx.ids);
  }

  lemma ApplyVersions(tables: Tables, tx: Tx, id: AccountId)
    requires id in tables.accounts
    ensures id in Apply(tables, tx).accounts
    ensures Apply(tables, tx).accounts[id].version == tables.accounts[id].version + (if id in tx.ids then 1 else 0)
  {
  }

  // ---------------------------------------------------------------- steps keep the invariant

  /** One more operation whose read, if it is one, returns what is there now. */
  lemma ReadsExtend(trace: seq<Op>, op: Op, tables: Tables)
    requires ReadsOk(trace, tables)
    requires op.ReadAccount? ==> op.id in tables.accounts && tables.accounts[op.id] == op.acc
    requires op.ReadOwned? ==> op.found == Seen(trace, tables, op.key)
    ensures ReadsOk(trace + [op], tables)
  {
    assert (trace + [op])[..|trace + [op]| - 1] == trace;
  }

  lemma WorkKeepsReads(tx: Tx, op: Op, tables: Tables)
    requires TxOk(tx, tables) && NamesOnly(op, tx.loaded.Keys) && !op.ReadAccount?
    requires op.ReadOwned? ==> op.found == Seen(tx.trace, tables, op.key)
    ensures TraceWithin(tx.trace + [op], tx.loaded.Keys) && (VersionsMatch(tx, tables) ==> ReadsOk(tx.trace + [op], tables))
  {
    if VersionsMatch(tx, tables) {
      ReadsExtend(tx.trace, op, tables);
    }
  }

  lemma WorkKeepsTx(tx: Tx, op: Op, tables: Tables)
    requires TxOk(tx, tables) && NamesOnly(op, tx.loaded.Keys) && !op.ReadAccount? && !op.Update?
    requires op.ReadOwned? ==> op.found == Seen(tx.trace, tables, op.key)
    ensures TxOk(tx.(trace := tx.trace + [op]), tables)
  {
    WorkKeepsReads(tx, op, tables);
    assert (tx.trace + [op])[..|tx.trace + [op]| - 1] == tx.trace;
    var after := tx.(trace := tx.trace + [op]);
    assert VersionsMatch(after, tables) ==> VersionsMatch(tx, tables);
  }

  lemma LoadKeepsTx(tx: Tx, id: AccountId, tables: Tables, since: map<AccountId, nat>)
    requires TxOk(tx, tables) && id in tx.ids && id !in tx.loaded && id in tables.accounts
    ensures TxOk(tx.(loaded := tx.loaded[id := tables.accounts[id]], since := since, trace := tx.trace + [ReadAccount(id, tables.accounts[id])]), tables)
  {
    var after := tx.(loaded := tx.loaded[id := tables.accounts[id]], since := since, trace := tx.trace + [ReadAccount(id, tables.accounts[id])]);
    assert after.trace[..|after.trace| - 1] == tx.trace;
    if VersionsMatch(after, tables) {
      assert forall other :: other in tx.loaded ==> other in after.loaded && after.loaded[other] == tx.loaded[other];
      assert VersionsMatch(tx, tables);
      ReadsExtend(tx.trace, ReadAccount(id, tables.accounts[id]), tables);
    }
    assert forall i :: 0 <= i < |tx.trace| ==> NamesOnly(tx.trace[i], tx.loaded.Keys);
  }

  /** Replacing one transaction keeps the invariant when it is sound and takes no lock another holds. */
  lemma TxStep(s: State, t: TxId, tx: Tx, initial: Tables)
    requires Inv(s, initial)
    requires tx.phase == Running ==> TxOk(tx, s.tables) && forall u :: u != t && IsRunning(s, u) ==> tx.written.Keys !! s.txs[u].written.Keys
    ensures Inv(WithTx(s, t, tx), initial)
  {
    var after := WithTx(s, t, tx);
    forall u | IsRunning(after, u)
      ensures TxOk(after.txs[u], after.tables)
    {
      assert u != t ==> IsRunning(s, u);
    }
    forall u, v | u != v && IsRunning(after, u) && IsRunning(after, v)
      ensures after.txs[u].written.Keys !! after.txs[v].written.Keys
    {
      assert (u != t ==> IsRunning(s, u)) && (v != t ==> IsRunning(s, v));
    }
  }

  /** Another transaction's commit either touches none of a transaction's accounts, or makes its versions stale for good. */
  lemma CommitKeepsOther(tables: Tables, tx: Tx, other: Tx)
    requires TxOk(other, tables) && TraceWithin(tx.trace, tx.ids) && other.written.Keys !! tx.ids
    ensures TxOk(other, Apply(tables, tx))
  {
    var after := Apply(tables, tx);
    forall id | id in other.loaded
      ensures id in after.accounts && other.loaded[id].version <= after.accounts[id].version
      ensures id in other.written ==> after.accounts[id] == tables.accounts[id]
    {
      ApplyVersions(tables, tx, id);
    }
    if VersionsMatch(other, after) {
      forall id | id in other.loaded
        ensures id !in tx.ids && tables.accounts[id].version == other.loaded[id].version
      {
        ApplyVersions(tables, tx, id);
      }
      ApplyFrame(tables, tx, other.loaded.Keys);
      assert VersionsMatch(other, tables);
      ReadsFrame(other.trace, tables, after, other.loaded.Keys);
    }
  }

  /** What a commit writes is what the transaction run alone would leave. */
  lemma CommitRanAlone(tables: Tables, tx: Tx)
    requires TxOk(tx, tables) && tx.written.Keys == tx.ids
    ensures RanAlone(tables, tx, Tables(tables.accounts + tx.written, tables.owned + OwnedWrites(tx.trace)))
  {
    var after := tables.accounts + tx.written;
    forall id
      ensures id in after <==> id in tables.accounts
    {
      assert id in tx.written ==> id in tables.accounts;
    }
    assert after.Keys == tables.accounts.Keys;
  }

  lemma CommitKeepsInv(s: State, t: TxId, initial: Tables)
    requires Inv(s, initial) && Enabled(s, Commit(t))
    ensures Inv(Next(s, Commit(t)), initial)
  {
    var tx := s.txs[t].(phase := Committed);
    var after := Next(s, Commit(t));
    assert TxOk(s.txs[t], s.tables);
    CommitRanAlone(s.tables, tx);
    OneOutcome(s.tables, tx, after.tables, Apply(s.tables, tx));
    assert VersionsMatch(s.txs[t], s.tables);
    assert after.log[..|after.log| - 1] == s.log;
    CommitKeepsOthers(s, t, after);
  }

  lemma CommitKeepsOthers(s: State, t: TxId, after: State)
    requires RunningOk(s) && LocksApart(s) && Enabled(s, Commit(t)) && after.txs == s.txs[t := s.txs[t].(phase := Committed)]
    requires after.tables == Apply(s.tables, s.txs[t].(phase := Committed))
    ensures RunningOk(after) && LocksApart(after)
  {
    assert IsRunning(s, t);
    forall u | IsRunning(after, u)
      ensures TxOk(after.txs[u], after.tables)
    {
      assert u != t && IsRunning(s, u);
      CommitKeepsOther(s.tables, s.txs[t].(phase := Committed), s.txs[u]);
    }
    forall u, v | u != v && IsRunning(after, u) && IsRunning(after, v)
      ensures after.txs[u].written.Keys !! after.txs[v].written.Keys
    {
      assert IsRunning(s, u) && IsRunning(s, v);
    }
  }

  /** A conditional update that finds its row is the first one: the version moves away from the loaded one. */
  lemma FirstWriteOnly(s: State, tx: Tx, id: AccountId)
    requires TxOk(tx, s.tables) && VersionHolds(s, tx, id)
    ensures id !in tx.written && s.tables.accounts[id].version == tx.loaded[id].version
  {
  }

  lemma UpdateKeepsTx(s: State, tx: Tx, id: AccountId, value: Value)
    requires TxOk(tx, s.tables) && VersionHolds(s, tx, id)
    ensures TxOk(tx.(trace := tx.trace + [Update(id, value)], written := Written(s, tx, id, value)), s.tables)
  {
    FirstWriteOnly(s, tx, id);
    WorkKeepsReads(tx, Update(id, value), s.tables);
    var trace := tx.trace + [Update(id, value)];
    assert trace[..|trace| - 1] == tx.trace;
    assert Updates(trace) == Updates(tx.trace)[id := value];
  }

  lemma TouchKeepsTx(s: State, tx: Tx, id: AccountId)
    requires TxOk(tx, s.tables) && VersionHolds(s, tx, id)
    ensures TxOk(tx.(written := Written(s, tx, id, s.tables.accounts[id].value)), s.tables)
  {
    FirstWriteOnly(s, tx, id);
    var after := tx.(written := Written(s, tx, id, s.tables.accounts[id].value));
    assert VersionsMatch(after, s.tables) ==> VersionsMatch(tx, s.tables);
  }

  lemma WriteKeepsInv(s: State, t: TxId, id: AccountId, tx: Tx, initial: Tables)
    requires Inv(s, initial) && IsRunning(s, t) && LockFree(s, t, id)
    requires tx.written.Keys == s.txs[t].written.Keys + {id} && TxOk(tx, s.tables)
    ensures Inv(WithTx(s, t, tx), initial)
  {
    forall u | u != t && IsRunning(s, u)
      ensures tx.written.Keys !! s.txs[u].written.Keys
    {
      assert id !in s.txs[u].written && s.txs[t].written.Keys !! s.txs[u].written.Keys;
    }
    TxStep(s, t, tx, initial);
  }

  lemma StepKeepsInv(s: State, step: Step, initial: Tables)
    requires Inv(s, initial) && Enabled(s, step)
    ensures Inv(Next(s, step), initial)
  {
    match step
    case Begin(t, ids) => TxStep(s, t, Tx(ids, [], map[], map[], map[], Running), initial);
    case Load(t, id) =>
      LoadKeepsTx(s.txs[t], id, s.tables, s.txs[t].since[id := |s.log|]);
      TxStep(s, t, Next(s, step).txs[t], initial);
    case Peek(t, key) =>
      WorkKeepsTx(s.txs[t], ReadOwned(key, Seen(s.txs[t].trace, s.tables, key)), s.tables);
      TxStep(s, t, Next(s, step).txs[t], initial);
    case Put(t, key, written) =>
      WorkKeepsTx(s.txs[t], WriteOwned(key, written), s.tables);
      TxStep(s, t, Next(s, step).txs[t], initial);
    case UpdateAccount(t, id, value) =>
      if VersionHolds(s, s.txs[t], id) {
        UpdateKeepsTx(s, s.txs[t], id, value);
        WriteKeepsInv(s, t, id, Next(s, step).txs[t], initial);
      } else {
        TxStep(s, t, Next(s, step).txs[t], initial);
      }
    case Touch(t, id) =>
      if VersionHolds(s, s.txs[t], id) {
        TouchKeepsTx(s, s.txs[t], id);
        WriteKeepsInv(s, t, id, Next(s, step).txs[t], initial);
      } else {
        TxStep(s, t, Next(s, step).txs[t], initial);
      }
    case Commit(t) => CommitKeepsInv(s, t, initial);
    case Abort(t) => TxStep(s, t, Next(s, step).txs[t], initial);
  }

  lemma {:induction false} RunKeepsInv(s: State, steps: seq<Step>, initial: Tables)
    requires Inv(s, initial) && Runs(s, steps)
    ensures Inv(After(s, steps), initial)
    decreases steps
  {
    if steps != [] {
      StepKeepsInv(s, steps[0], initial);
      RunKeepsInv(Next(s, steps[0]), steps[1..], initial);
    }
  }

  /**
   * Serializability: after any interleaving the tables are those of the
   * committed transactions run alone in commit order, and each of them read,
   * owned rows included, exactly what it would have read alone at its place.
   */
  lemma Serializable(initial: Tables, steps: seq<Step>)
    requires Runs(Init(initial), steps)
    ensures
      var end := After(Init(initial), steps);
      end.tables == Serial(initial, end.log) && SerialReads(initial, end.log)
  {
    RunKeepsInv(Init(initial), steps, initial);
  }

  // ---------------------------------------------------------------- one update per account

  predicate Over(s: State, t: TxId) {
    t in s.txs && s.txs[t].phase == Aborted
  }

  lemma {:induction false} AbortedForGood(s: State, steps: seq<Step>, t: TxId)
    requires Runs(s, steps) && Over(s, t)
    ensures Over(After(s, steps), t)
    decreases steps
  {
    if steps != [] {
      AbortedForGood(Next(s, steps[0]), steps[1..], t);
    }
  }

  // ---------------------------------------------------------------- versions count commits

  function Naming(log: seq<Tx>, id: AccountId): nat {
    if log == [] then 0 else Naming(log[..|log| - 1], id) + (if id in log[|log| - 1].ids then 1 else 0)
  }

  lemma {:induction false} VersionCounts(initial: Tables, log: seq<Tx>, id: AccountId)
    requires id in initial.accounts
    ensures id in Serial(initial, log).accounts
    ensures Serial(initial, log).accounts[id].version == initial.accounts[id].version + Naming(log, id)
  {
    if log != [] {
      VersionCounts(initial, log[..|log| - 1], id);
      ApplyVersions(Serial(initial, log[..|log| - 1]), log[|log| - 1], id);
    }
  }

  /** No update is lost: an account's version counts exactly the commits that named it. */
  lemma VersionsCountCommits(initial: Tables, steps: seq<Step>, id: AccountId)
    requires Runs(Init(initial), steps) && id in initial.accounts
    ensures
      var end := After(Init(initial), steps);
      id in end.tables.accounts && end.tables.accounts[id].version == initial.accounts[id].version + Naming(end.log, id)
  {
    Serializable(initial, steps);
    VersionCounts(initial, After(Init(initial), steps).log, id);
  }

  // ---------------------------------------------------------------- when an update succeeds

  /** A loaded version counts the commits that named the account before it was loaded. */
  predicate CountsAt(tx: Tx, id: AccountId, log: seq<Tx>, initial: Tables) {
    id in tx.loaded && id in tx.since && tx.since[id] <= |log| && id in initial.accounts &&
    tx.loaded[id].version == initial.accounts[id].version + Naming(log[..tx.since[id]], id)
  }

  ghost predicate LoadsCount(s: State, initial: Tables) {
    forall t, id :: IsRunning(s, t) && id in s.txs[t].loaded ==> CountsAt(s.txs[t], id, s.log, initial)
  }

  lemma CountsStay(tx: Tx, id: AccountId, log: seq<Tx>, more: seq<Tx>, initial: Tables)
    requires CountsAt(tx, id, log, initial)
    ensures CountsAt(tx, id, log + more, initial)
  {
    assert (log + more)[..tx.since[id]] == log[..tx.since[id]];
  }

  lemma {:induction false} SerialKeys(initial: Tables, log: seq<Tx>)
    ensures Serial(initial, log).accounts.Keys == initial.accounts.Keys
  {
    if log != [] {
      SerialKeys(initial, log[..|log| - 1]);
    }
  }

  lemma LoadCounts(s: State, t: TxId, id: AccountId, initial: Tables)
    requires Inv(s, initial) && LoadsCount(s, initial) && Enabled(s, Load(t, id))
    ensures LoadsCount(Next(s, Load(t, id)), initial)
  {
    SerialKeys(initial, s.log);
    assert id in initial.accounts.Keys;
    VersionCounts(initial, s.log, id);
    assert s.log[..|s.log|] == s.log;
    var after := Next(s, Load(t, id));
    assert CountsAt(after.txs[t], id, after.log, initial);
    forall u, other | IsRunning(after, u) && other in after.txs[u].loaded
      ensures CountsAt(after.txs[u], other, after.log, initial)
    {
      if u != t || other != id {
        assert CountsAt(s.txs[u], other, s.log, initial);
      }
    }
  }

  /** Every step but a load leaves what was loaded alone, and the log only grows. */
  lemma OthersLoadNothing(s: State, step: Step, u: TxId, id: AccountId)
    requires Enabled(s, step) && !step.Load? && IsRunning(Next(s, step), u) && id in Next(s, step).txs[u].loaded
    ensures IsRunning(s, u) && Next(s, step).txs[u].loaded == s.txs[u].loaded && Next(s, step).txs[u].since == s.txs[u].since
    ensures s.log <= Next(s, step).log
  {
  }

  lemma StepKeepsCounts(s: State, step: Step, initial: Tables)
    requires Inv(s, initial) && LoadsCount(s, initial) && Enabled(s, step)
    ensures LoadsCount(Next(s, step), initial)
  {
    if step.Load? {
      LoadCounts(s, step.t, step.id, initial);
    } else {
      var after := Next(s, step);
      forall u, id | IsRunning(after, u) && id in after.txs[u].loaded
        ensures CountsAt(after.txs[u], id, after.log, initial)
      {
        OthersLoadNothing(s, step, u, id);
        CountsStay(s.txs[u], id, s.log, after.log[|s.log|..], initial);
        assert after.log == s.log + after.log[|s.log|..];
      }
    }
  }

  lemma {:induction false} RunKeepsCounts(s: State, steps: seq<Step>, initial: Tables)
    requires Inv(s, initial) && LoadsCount(s, initial) && Runs(s, steps)
    ensures LoadsCount(After(s, steps), initial)
    decreases steps
  {
    if steps != [] {
      StepKeepsCounts(s, steps[0], initial);
      StepKeepsInv(s, steps[0], initial);
      RunKeepsCounts(Next(s, steps[0]), steps[1..], initial);
    }
  }

  /** Some transaction that committed since has named the account. */
  predicate NamedSince(log: seq<Tx>, k: nat, id: AccountId) {
    exists i :: k <= i < |log| && id in log[i].ids
  }

  lemma {:induction false} NamingGrows(log: seq<Tx>, k: nat, id: AccountId)
    requires k <= |log|
    ensures Naming(log[..k], id) <= Naming(log, id)
    ensures Naming(log[..k], id) < Naming(log, id) <==> NamedSince(log, k, id)
  {
    if k == |log| {
      assert log[..k] == log;
    } else {
      var last := |log| - 1;
      NamingGrows(log[..last], k, id);
      assert log[..last][..k] == log[..k];
      assert NamedSince(log[..last], k, id) ==> NamedSince(log, k, id) by {
        if i :| k <= i < last && id in log[..last][i].ids {
          assert id in log[i].ids;
        }
      }
      if i :| k <= i < |log| && id in log[i].ids {
        assert i < last ==> id in log[..last][i].ids;
      }
    }
  }

  /**
   * In every run a transaction's account update succeeds exactly when it has not
   * written that account before and nobody who named the account has committed
   * since it was loaded.
   */
  lemma UpdateSucceedsIff(initial: Tables, steps: seq<Step>, t: TxId, id: AccountId, value: Value)
    requires Runs(Init(initial), steps) && Enabled(After(Init(initial), steps), UpdateAccount(t, id, value))
    ensures
      var s := After(Init(initial), steps);
      && id in s.txs[t].since
      && (IsRunning(Next(s, UpdateAccount(t, id, value)), t) <==>
          id !in s.txs[t].written && !NamedSince(s.log, s.txs[t].since[id], id))
  {
    var s := After(Init(initial), steps);
    RunKeepsInv(Init(initial), steps, initial);
    RunKeepsCounts(Init(initial), steps, initial);
    assert TxOk(s.txs[t], s.tables) && id in s.txs[t].loaded.Keys;
    assert CountsAt(s.txs[t], id, s.log, initial);
    VersionCounts(initial, s.log, id);
    NamingGrows(s.log, s.txs[t].since[id], id);
  }

  /** Updating the same account twice dooms the transaction: it can never commit, whatever follows. */
  lemma SecondUpdateNeverCommits(initial: Tables, steps: seq<Step>, t: TxId, id: AccountId, value: Value, rest: seq<Step>)
    requires Runs(Init(initial), steps) && Enabled(After(Init(initial), steps), UpdateAccount(t, id, value))
    requires id in Updates(After(Init(initial), steps).txs[t].trace)
    requires Runs(Next(After(Init(initial), steps), UpdateAccount(t, id, value)), rest)
    ensures Over(After(Next(After(Init(initial), steps), UpdateAccount(t, id, value)), rest), t)
  {
    var s := After(Init(initial), steps);
    RunKeepsInv(Init(initial), steps, initial);
    assert TxOk(s.txs[t], s.tables);
    if VersionHolds(s, s.txs[t], id) {
      FirstWriteOnly(s, s.txs[t], id);
    }
    AbortedForGood(Next(s, UpdateAccount(t, id, value)), rest, t);
  }
}
