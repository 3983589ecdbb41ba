/**
 * The table of staged objects: the identity and transition triggers, the CHECK constraints and
 * the unique storage key, as they stand after migrations 0010 and 0011.
 */
module StagedObjects {
  import opened Common
  import opened Json
  import opened Uuids

  datatype ObjectState = AwaitingUpload | Uploading | Quarantined | Clean | Rejected | Consumed | Expired

  /** The columns `protect_dce_staged_object_identity` freezes. */
  datatype Identity = Identity(
    tenant: Uuid,
    consultation: Uuid,
    storageKey: string,
    filename: string,
    expectedSize: int,
    channel: string,
    expiresAt: int)

  datatype StagedObject = StagedObject(
    identity: Identity,
    state: ObjectState,
    actualSize: Option<int>,
    sha256: Option<string>,
    mediaType: Option<string>,
    scanVerdict: Option<string>,
    scannerName: Option<string>,
    signatureVersion: Option<string>,
    scannedAt: Option<int>,
    rejectionCode: Option<string>,
    consumedBy: Option<Uuid>,
    consumedAt: Option<int>,
    updatedBy: Option<Uuid>)

  /** Rows the command handlers own: staged objects, and the rows of all other tables. */
  datatype Root = Staged(row: StagedObject) | Other(content: Json)

  type Roots = map<Uuid, Root>

  /** `_DELETABLE_STATES` of the retention worker. */
  const DELETABLE: set<ObjectState> := {Rejected, Expired}

  predicate TransitionAllowed(a: ObjectState, b: ObjectState) {
    match a
    case AwaitingUpload => b in {Uploading, Rejected, Expired}
    case Uploading => b in {Quarantined, Rejected, Expired}
    case Quarantined => b in {Clean, Rejected, Expired}
    case Clean => b in {Consumed, Expired}
    case Rejected => b == Expired
    case Consumed => false
    case Expired => false
  }

  predicate IsDigest(s: string) {
    |s| == 64 && forall c :: c in s ==> IsLowerHex(c)
  }

  /** The CHECK constraints; a NULL never violates one. */
  predicate RowAllowed(o: StagedObject) {
    && o.identity.expectedSize > 0
    && (o.actualSize.Some? ==> o.actualSize.value > 0)
    && (o.sha256.Some? ==> IsDigest(o.sha256.value))
    && (o.scanVerdict.Some? ==> o.scanVerdict.value in {"CLEAN", "INFECTED", "ERROR"})
    && (o.state == Consumed ==> o.consumedBy.Some? && o.consumedAt.Some?)
    && (o.state != Consumed ==> o.consumedBy.None? && o.consumedAt.None?)
    && (o.state == Clean ==>
          && o.actualSize.Some? && o.sha256.Some? && o.mediaType.Some? && o.scanVerdict == Some("CLEAN")
          && o.scannerName.Some? && o.signatureVersion.Some? && o.scannedAt.Some?)
  }

  /** What both triggers and the constraints let an UPDATE do. */
  predicate UpdateAllowed(a: StagedObject, b: StagedObject) {
    a.identity == b.identity && TransitionAllowed(a.state, b.state) && RowAllowed(b)
  }

  /** One written row; a row written back unchanged causes no UPDATE. */
  predicate WriteAllowed(roots: Roots, id: Uuid, root: Root) {
    if id in roots then
      match roots[id]
      case Staged(a) => root.Staged? && (root.row == a || UpdateAllowed(a, root.row))
      case Other(_) => root.Other?
    else root.Staged? ==> RowAllowed(root.row)
  }

  predicate StorageKeysUnique(roots: Roots) {
    forall a, b | a in roots && b in roots && roots[a].Staged? && roots[b].Staged? ::
      roots[a].row.identity.storageKey == roots[b].row.identity.storageKey ==> a == b
  }

  predicate WritesAllowed(roots: Roots, writes: Roots) {
    && (forall id :: id in writes ==> WriteAllowed(roots, id, writes[id]))
    && StorageKeysUnique(roots + writes)
  }

  // ---- What the triggers guarantee ----

  /** `b` is the same object some time later. */
  ghost predicate ObjectLater(a: StagedObject, b: StagedObject) {
    && a.identity == b.identity
    && (a.state in DELETABLE ==> b.state in DELETABLE)
    && (a.state in {Consumed, Expired} ==> b == a)
    && (b.state == Consumed && a.state != Consumed ==> a.state !in DELETABLE)
  }

  lemma UpdateIsLater(a: StagedObject, b: StagedObject, c: StagedObject)
    requires ObjectLater(a, b) && (b == c || UpdateAllowed(b, c))
    ensures ObjectLater(a, c)
  {
  }

  /** No staged object is lost, and each is the same object some time later. */
  ghost predicate RootsLater(a: Roots, b: Roots) {
    forall id | id in a && a[id].Staged? :: id in b && b[id].Staged? && ObjectLater(a[id].row, b[id].row)
  }

  lemma {:induction false} WritesAreLater(first: Roots, roots: Roots, writes: Roots)
    requires RootsLater(first, roots) && WritesAllowed(roots, writes)
    ensures RootsLater(first, roots + writes)
  {
    forall id | id in first && first[id].Staged?
      ensures ObjectLater(first[id].row, (roots + writes)[id].row)
    {
      if id in writes {
        assert WriteAllowed(roots, id, writes[id]);
        UpdateIsLater(first[id].row, roots[id].row, writes[id].row);
      }
    }
  }

  /** A sequence of states in which every change is one the trigger allows. */
  ghost predicate Path(states: seq<ObjectState>) {
    forall i :: 0 < i < |states| ==> TransitionAllowed(states[i - 1], states[i])
  }

  ghost predicate Leads(states: seq<ObjectState>, a: ObjectState, b: ObjectState) {
    states != [] && Path(states) && states[0] == a && states[|states| - 1] == b
  }

  lemma {:induction false} DeletableStaysDeletable(states: seq<ObjectState>, i: nat)
    requires Path(states) && i < |states| && states[0] in DELETABLE
    ensures states[i] in DELETABLE
  {
    if i > 0 {
      DeletableStaysDeletable(states, i - 1);
    }
  }

  function WayToConsumed(a: ObjectState): seq<ObjectState> {
    match a
    case AwaitingUpload => [AwaitingUpload, Uploading, Quarantined, Clean, Consumed]
    case Uploading => [Uploading, Quarantined, Clean, Consumed]
    case Quarantined => [Quarantined, Clean, Consumed]
    case Clean => [Clean, Consumed]
    case _ => [Consumed]
  }

  /**
   * The states the retention worker deletes are exactly those from which CONSUMED cannot be
   * reached any more: one state less would leave bytes behind, one more would be unsafe.
   */
  lemma {:induction false} DeletableExactly(a: ObjectState)
    ensures a in DELETABLE <==> !exists states :: Leads(states, a, Consumed)
  {
    if a in DELETABLE {
      forall states | Leads(states, a, Consumed) ensures false {
        DeletableStaysDeletable(states, |states| - 1);
      }
    } else {
      assert Leads(WayToConsumed(a), a, Consumed);
    }
  }

  /** How far an object has come on the way to its consumption. */
  function Progress(a: ObjectState): int {
    match a
    case AwaitingUpload => 0
    case Uploading => 1
    case Quarantined => 2
    case Clean => 3
    case Consumed => 4
    case _ => -1
  }

  /**
   * The transitions: one step on the way to the consumption, a rejection before the object is
   * clean, and an expiry of any object that is neither consumed nor expired. Nothing else.
   */
  lemma {:induction false} TransitionsExactly(a: ObjectState, b: ObjectState)
    ensures TransitionAllowed(a, b) <==>
      || (0 <= Progress(a) && Progress(b) == Progress(a) + 1)
      || (0 <= Progress(a) <= 2 && b == Rejected)
      || (a != Consumed && a != Expired && b == Expired)
  {
  }
}
