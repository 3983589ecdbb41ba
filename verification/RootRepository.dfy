/**
 * `update_root_with_expected_revision`: the guarded UPDATE of one aggregate root, and what any
 * number of clients that read and then update under an expected revision can rely on.
 */
module RootRepository {
  import opened Common
  import opened Json

  /** Tenant and aggregate ids are only compared. */
  type Id = nat

  /** The guard columns of a root, and its other columns by name. */
  datatype Root = Root(tenant: Id, revision: int, updatedAt: int, columns: map<string, Json>)

  type Roots = map<Id, Root>

  datatype Update = Update(
    tenant: Id,
    id: Id,
    expected: int,
    changes: map<string, Json>,
    allowed: set<string>,
    now: int)

  datatype UpdateError =
    | NegativeRevision
    | NoChanges
    | ForbiddenColumns(names: set<string>)
    | DuplicateKeyword
    | UnknownColumns
    | Conflict

  /** The columns the statement itself assigns. */
  const STATEMENT_COLUMNS: set<string> := {"aggregate_revision", "updated_at"}

  /** The keys of a root never belong to a whitelist. */
  predicate OrdinaryColumns(allowed: set<string>) {
    "id" !in allowed && "tenant_id" !in allowed
  }

  /** The row the WHERE clause selects. */
  predicate Selected(roots: Roots, u: Update) {
    u.id in roots && roots[u.id].tenant == u.tenant && roots[u.id].revision == u.expected
  }

  function Changed(root: Root, u: Update): Root {
    root.(columns := root.columns + u.changes, revision := root.revision + 1, updatedAt := u.now)
  }

  /** The errors raised before the statement runs, in the order of the checks. */
  function Refusal(u: Update, tableColumns: set<string>): Option<UpdateError> {
    if u.expected < 0 then Some(NegativeRevision)
    else if u.changes.Keys == {} then Some(NoChanges)
    else if u.changes.Keys - u.allowed != {} then Some(ForbiddenColumns(u.changes.Keys - u.allowed))
    else if u.changes.Keys * STATEMENT_COLUMNS != {} then Some(DuplicateKeyword)
    else if !(u.changes.Keys <= tableColumns) then Some(UnknownColumns)
    else None
  }

  function Updated(roots: Roots, u: Update, tableColumns: set<string>): (Roots, Result<int, UpdateError>) {
    match Refusal(u, tableColumns)
    case Some(error) => (roots, Err(error))
    case None =>
      if Selected(roots, u) then (roots[u.id := Changed(roots[u.id], u)], Ok(u.expected + 1))
      else (roots, Err(Conflict))
  }

  class Table {
    const tableColumns: set<string>
    var roots: Roots

    constructor (tableColumns: set<string>, roots: Roots)
      ensures this.tableColumns == tableColumns && this.roots == roots
    {
      this.tableColumns := tableColumns;
      this.roots := roots;
    }

    /** The UPDATE statement; the result is its row count. */
    method ExecuteUpdate(u: Update) returns (rowcount: nat)
      modifies this
      ensures rowcount == if Selected(old(roots), u) then 1 else 0
      ensures roots == if Selected(old(roots), u) then old(roots)[u.id := Changed(old(roots)[u.id], u)] else old(roots)
    {
      rowcount := 0;
      if u.id in roots {
        var root := roots[u.id];
        if root.tenant == u.tenant && root.revision == u.expected {
          root := root.(columns := root.columns + u.changes);
          root := root.(revision := root.revision + 1, updatedAt := u.now);
          roots := roots[u.id := root];
          rowcount := 1;
        }
      }
    }

    method UpdateRootWithExpectedRevision(u: Update) returns (result: Result<int, UpdateError>)
      requires OrdinaryColumns(u.allowed)
      modifies this
      ensures (roots, result) == Updated(old(roots), u, tableColumns)
    {
      if u.expected < 0 {
        return Err(NegativeRevision);
      }
      if u.changes.Keys == {} {
        return Err(NoChanges);
      }
      var unexpected := u.changes.Keys - u.allowed;
      if unexpected != {} {
        return Err(ForbiddenColumns(unexpected));
      }
      if u.changes.Keys * STATEMENT_COLUMNS != {} {
        return Err(DuplicateKeyword);
      }
      if !(u.changes.Keys <= tableColumns) {
        return Err(UnknownColumns);
      }
      var rowcount := ExecuteUpdate(u);
      if rowcount != 1 {
        return Err(Conflict);
      }
      result := Ok(u.expected + 1);
    }
  }

  // ---- One update ----

  /** Everything but the whitelisted columns, the revision and the time of one root stays as it was. */
  lemma {:induction false} OnlyTheTargetChanges(roots: Roots, u: Update, tableColumns: set<string>)
    requires OrdinaryColumns(u.allowed)
    ensures var (roots', result) := Updated(roots, u, tableColumns);
      && roots'.Keys == roots.Keys
      && (forall id :: id in roots && id != u.id ==> roots'[id] == roots[id])
      && (forall id | id in roots ::
            && roots'[id].tenant == roots[id].tenant
            && (roots[id].tenant != u.tenant ==> roots'[id] == roots[id])
            && (forall c :: c !in u.allowed ==>
                  (c in roots'[id].columns <==> c in roots[id].columns)
                  && (c in roots[id].columns ==> roots'[id].columns[c] == roots[id].columns[c])))
      && (result.Err? ==> roots' == roots)
  {
    forall c | Refusal(u, tableColumns) == None && c in u.changes ensures c in u.allowed {
      assert c !in u.changes.Keys - u.allowed;
    }
  }

  /** A client may send this: something to change, and nothing but whitelisted columns of the table. */
  ghost predicate WellSent(u: Update, tableColumns: set<string>) {
    && u.expected >= 0 && (exists c :: c in u.changes)
    && forall c :: c in u.changes ==>
         c in u.allowed && c in tableColumns && c != "aggregate_revision" && c != "updated_at"
  }

  /** A column of a root, if it has it. */
  ghost function Value(root: Root, c: string): Option<Json> {
    if c in root.columns then Some(root.columns[c]) else None
  }

  /** The root after a success: the values sent, the next revision, the time; all else as before. */
  ghost predicate Wrote(before: Root, after: Root, u: Update) {
    && after.tenant == before.tenant && after.revision == u.expected + 1 && after.updatedAt == u.now
    && forall c :: Value(after, c) == if c in u.changes then Some(u.changes[c]) else Value(before, c)
  }

  /**
   * An update succeeds exactly if it is well sent and the root is the tenant's, at the expected
   * revision. Then it returns the next revision and has written each value it was sent.
   */
  lemma {:induction false} SuccessWrites(roots: Roots, u: Update, tableColumns: set<string>)
    ensures var (roots', result) := Updated(roots, u, tableColumns);
      && (result.Ok? <==>
            WellSent(u, tableColumns) && u.id in roots && roots[u.id].tenant == u.tenant
            && roots[u.id].revision == u.expected)
      && (result.Ok? ==>
            && result.value == u.expected + 1
            && roots'.Keys == roots.Keys && Wrote(roots[u.id], roots'[u.id], u)
            && forall id :: id in roots && id != u.id ==> roots'[id] == roots[id])
      && (result == Err(Conflict) <==> WellSent(u, tableColumns) && !Selected(roots, u))
  {
    ChecksExactly(u, tableColumns);
  }

  lemma ChecksExactly(u: Update, tableColumns: set<string>)
    ensures Refusal(u, tableColumns) == None <==> WellSent(u, tableColumns)
  {
    if Refusal(u, tableColumns) == None {
      forall c | c in u.changes ensures c in u.allowed && c !in STATEMENT_COLUMNS {
        assert c !in u.changes.Keys - u.allowed && c !in u.changes.Keys * STATEMENT_COLUMNS;
      }
    }
  }

  /** What is wrong with an update that is refused, in the order in which it is noticed. */
  lemma {:induction false} RefusalExactly(roots: Roots, u: Update, tableColumns: set<string>)
    ensures var (roots', result) := Updated(roots, u, tableColumns);
      && (result == Err(NegativeRevision) <==> u.expected < 0)
      && (result == Err(NoChanges) <==> u.expected >= 0 && !exists c :: c in u.changes)
      && (result.Err? && result.error.ForbiddenColumns? <==>
            u.expected >= 0 && exists c :: c in u.changes && c !in u.allowed)
      && (result.Err? && result.error.ForbiddenColumns? ==>
            forall c :: c in result.error.names <==> c in u.changes && c !in u.allowed)
      && (result == Err(DuplicateKeyword) ==> "aggregate_revision" in u.changes || "updated_at" in u.changes)
      && (result == Err(UnknownColumns) ==> exists c :: c in u.changes && c !in tableColumns)
      && (result.Err? ==> roots' == roots)
  {
    assert u.changes.Keys == {} <==> !exists c :: c in u.changes;
    assert u.changes.Keys - u.allowed == {} <==> !exists c :: c in u.changes && c !in u.allowed by {
      forall c | c in u.changes && c !in u.allowed ensures c in u.changes.Keys - u.allowed {
      }
    }
    if c :| c in u.changes.Keys * STATEMENT_COLUMNS {
    }
  }

  // ---- Any number of clients ----

  ghost function After(roots: Roots, updates: seq<Update>, tableColumns: set<string>): Roots {
    if updates == [] then roots
    else Updated(After(roots, updates[..|updates| - 1], tableColumns), updates[|updates| - 1], tableColumns).0
  }

  ghost function At(roots: Roots, updates: seq<Update>, tableColumns: set<string>, i: int): Roots
    requires 0 <= i <= |updates|
  {
    After(roots, updates[..i], tableColumns)
  }

  /** The `i`-th update of the history succeeds, on this root. */
  ghost predicate Succeeds(roots: Roots, updates: seq<Update>, tableColumns: set<string>, i: int, id: Id) {
    0 <= i < |updates| && updates[i].id == id
    && Updated(At(roots, updates, tableColumns, i), updates[i], tableColumns).1.Ok?
  }

  ghost function SuccessCount(roots: Roots, updates: seq<Update>, tableColumns: set<string>, n: nat, id: Id): nat
    requires n <= |updates|
  {
    if n == 0 then 0
    else SuccessCount(roots, updates, tableColumns, n - 1, id)
         + if Succeeds(roots, updates, tableColumns, n - 1, id) then 1 else 0
  }

  lemma {:induction false} OneStep(roots: Roots, updates: seq<Update>, tableColumns: set<string>, i: nat, id: Id)
    requires i < |updates| && id in At(roots, updates, tableColumns, i)
    ensures id in At(roots, updates, tableColumns, i + 1)
    ensures var before, after := At(roots, updates, tableColumns, i)[id], At(roots, updates, tableColumns, i + 1)[id];
      if Succeeds(roots, updates, tableColumns, i, id) then
        after == Changed(before, updates[i]) && before.revision == updates[i].expected >= 0
      else after == before
  {
    assert updates[..i + 1][..i] == updates[..i];
  }

  /** What the last success that names the column sent, or else what the root started with. */
  ghost function LastSent(
    roots: Roots, updates: seq<Update>, tableColumns: set<string>, n: nat, id: Id, c: string): Option<Json>
    requires n <= |updates| && id in roots
  {
    if n == 0 then Value(roots[id], c)
    else if Succeeds(roots, updates, tableColumns, n - 1, id) && c in updates[n - 1].changes then
      Some(updates[n - 1].changes[c])
    else LastSent(roots, updates, tableColumns, n - 1, id, c)
  }

  /** The time of the last success, or else the time the root started with. */
  ghost function LastTime(roots: Roots, updates: seq<Update>, tableColumns: set<string>, n: nat, id: Id): int
    requires n <= |updates| && id in roots
  {
    if n == 0 then roots[id].updatedAt
    else if Succeeds(roots, updates, tableColumns, n - 1, id) then updates[n - 1].now
    else LastTime(roots, updates, tableColumns, n - 1, id)
  }

  /**
   * After any history of updates by any number of clients, each column of a root holds what the
   * last success that names it sent, or its first value, and the root the time of the last success.
   */
  lemma {:induction false} ColumnsHoldTheLast(
    roots: Roots, updates: seq<Update>, tableColumns: set<string>, n: nat, id: Id, c: string)
    requires n <= |updates| && id in roots
    ensures id in At(roots, updates, tableColumns, n)
    ensures Value(At(roots, updates, tableColumns, n)[id], c) == LastSent(roots, updates, tableColumns, n, id, c)
    ensures At(roots, updates, tableColumns, n)[id].updatedAt == LastTime(roots, updates, tableColumns, n, id)
  {
    if n == 0 {
      assert updates[..0] == [];
    } else {
      ColumnsHoldTheLast(roots, updates, tableColumns, n - 1, id, c);
      OneStep(roots, updates, tableColumns, n - 1, id);
      SuccessWrites(At(roots, updates, tableColumns, n - 1), updates[n - 1], tableColumns);
    }
  }

  /** A root is never lost and keeps its tenant; its revision counts the successes. */
  lemma {:induction false} RevisionCountsSuccesses(
    roots: Roots, updates: seq<Update>, tableColumns: set<string>, i: nat, j: nat, id: Id)
    requires i <= j <= |updates| && id in At(roots, updates, tableColumns, i)
    ensures id in At(roots, updates, tableColumns, j)
    ensures var a, b := At(roots, updates, tableColumns, i)[id], At(roots, updates, tableColumns, j)[id];
      && b.tenant == a.tenant
      && b.revision - a.revision ==
         SuccessCount(roots, updates, tableColumns, j, id) - SuccessCount(roots, updates, tableColumns, i, id)
      && b.revision >= a.revision
      && (b.revision == a.revision ==> b == a)
    decreases j - i
  {
    if i < j {
      RevisionCountsSuccesses(roots, updates, tableColumns, i, j - 1, id);
      OneStep(roots, updates, tableColumns, j - 1, id);
    }
  }

  lemma {:induction false} SuccessHasRow(roots: Roots, updates: seq<Update>, tableColumns: set<string>, i: nat, id: Id)
    requires Succeeds(roots, updates, tableColumns, i, id)
    ensures id in At(roots, updates, tableColumns, i)
    ensures At(roots, updates, tableColumns, i)[id].revision == updates[i].expected
  {
  }

  /** At most one update succeeds per expected revision of a root. */
  lemma {:induction false} OneSuccessPerRevision(
    roots: Roots, updates: seq<Update>, tableColumns: set<string>, i: nat, j: nat, id: Id)
    requires i < j && Succeeds(roots, updates, tableColumns, i, id) && Succeeds(roots, updates, tableColumns, j, id)
    ensures updates[i].expected < updates[j].expected
  {
    SuccessHasRow(roots, updates, tableColumns, i, id);
    SuccessHasRow(roots, updates, tableColumns, j, id);
    OneStep(roots, updates, tableColumns, i, id);
    RevisionCountsSuccesses(roots, updates, tableColumns, i + 1, j, id);
  }

  /** The successes form one chain: each expects what the one before it returned. */
  lemma {:induction false} SuccessesFormAChain(
    roots: Roots, updates: seq<Update>, tableColumns: set<string>, i: nat, j: nat, id: Id)
    requires i < j && Succeeds(roots, updates, tableColumns, i, id) && Succeeds(roots, updates, tableColumns, j, id)
    requires SuccessCount(roots, updates, tableColumns, j, id) == SuccessCount(roots, updates, tableColumns, i + 1, id)
    ensures Updated(At(roots, updates, tableColumns, i), updates[i], tableColumns).1 == Ok(updates[j].expected)
  {
    SuccessHasRow(roots, updates, tableColumns, i, id);
    SuccessHasRow(roots, updates, tableColumns, j, id);
    OneStep(roots, updates, tableColumns, i, id);
    RevisionCountsSuccesses(roots, updates, tableColumns, i + 1, j, id);
  }

  /**
   * No lost update: a client that read the root at some time and succeeds later under the
   * revision it read overwrites exactly the row it had read. And a client that sends a valid
   * update succeeds if and only if nobody else has succeeded since it read.
   */
  lemma {:induction false} NoLostUpdate(
    roots: Roots, updates: seq<Update>, tableColumns: set<string>, read: nat, i: nat, id: Id)
    requires read <= i < |updates| && updates[i].id == id && id in At(roots, updates, tableColumns, read)
    requires updates[i].expected == At(roots, updates, tableColumns, read)[id].revision
    requires updates[i].tenant == At(roots, updates, tableColumns, read)[id].tenant
    requires Refusal(updates[i], tableColumns) == None
    ensures id in At(roots, updates, tableColumns, i)
    ensures Succeeds(roots, updates, tableColumns, i, id) <==>
      At(roots, updates, tableColumns, i)[id] == At(roots, updates, tableColumns, read)[id]
    ensures Succeeds(roots, updates, tableColumns, i, id) <==>
      SuccessCount(roots, updates, tableColumns, i, id) == SuccessCount(roots, updates, tableColumns, read, id)
  {
    RevisionCountsSuccesses(roots, updates, tableColumns, read, i, id);
  }
}
