/** The local continuity engine: captures that pause their container and must give
    it back, checkpoints that must survive an interruption.

    Every store write, engine command and object-store call may fail, take effect
    and lose its answer, or be cut by a crash. After a crash (`alive` false) the
    rest of the call does nothing, so a call may stop at any point. `crashOnly`
    stays true while no command fails other than by a crash, so a call that ends
    with `crashOnly && alive` met no failure at all; `storing` stays true while no call of the
    row store fails, whatever the engine and the objects do. The engine mutex makes each call atomic to the others. */
module ContinuityService {
  import opened Options
  import opened Ordering

  type Id = string

  datatype Kind = CaptureKind | CheckpointKind | MaterializeKind

  datatype Phase =
    | Pending | Pausing | Paused | Capturing | Captured
    | Verifying | Materializing | Succeeded | Failed | RecoveryRequired

  datatype Identity = Identity(work: string, sandbox: string, generation: int, task: Option<string>)

  datatype Record = Record(
    kind: Kind, identity: Identity, digest: string, phase: Phase,
    pauseOwned: bool, pauseGeneration: int, pauseRevision: int,
    captureId: string, checkpointId: string, error: string)

  datatype Transition = Transition(
    from: Phase, to: Phase,
    pauseOwned: bool, pauseGeneration: int, pauseRevision: int,
    captureId: string, checkpointId: string, error: string)

  predicate ValidTransition(from: Phase, to: Phase) {
    match from
    case Pending => to in {Pausing, Capturing, Verifying, Materializing, Failed}
    case Pausing => to in {Paused, RecoveryRequired, Failed}
    case Paused => to in {Capturing, RecoveryRequired, Failed}
    case Capturing => to in {Captured, RecoveryRequired, Failed}
    case Verifying => to in {Succeeded, Failed, RecoveryRequired}
    case Materializing => to in {Succeeded, Failed, RecoveryRequired}
    case RecoveryRequired => to == Failed
    case _ => false
  }

  const INTERRUPTED := {Pausing, Paused, Capturing, Verifying, Materializing, RecoveryRequired}

  function Move(from: Phase, to: Phase, error: string): Transition {
    Transition(from, to, false, 0, 0, "", "", error)
  }

  /** A move of the pausing operation that keeps its claim on the pause. */
  function MoveOwned(from: Phase, to: Phase, generation: int, revision: int, error: string): Transition {
    Transition(from, to, true, generation, revision, "", "", error)
  }

  /** The store overwrites every transition column, so an omitted claim is dropped. */
  function Moved(r: Record, t: Transition): Record {
    r.(phase := t.to, pauseOwned := t.pauseOwned, pauseGeneration := t.pauseGeneration, pauseRevision := t.pauseRevision,
       captureId := t.captureId, checkpointId := t.checkpointId, error := t.error)
  }

  datatype EngineState = Running | PausedContainer | Stopped

  datatype Lifecycle = RunningLifecycle | StoppedLifecycle | OtherLifecycle

  datatype Workspace = Workspace(identity: Identity, lifecycle: Lifecycle, revision: int, noAdmittedExecution: bool, binding: string)

  datatype BoundaryKind = Initial | Task | StoppedBoundary

  datatype Boundary = Boundary(kind: BoundaryKind, identity: Identity, lastAccepted: Option<string>, binding: string)

  /** Whether an acknowledged boundary covers a capture of this workspace. */
  predicate BoundaryFits(identity: Identity, boundary: Boundary, workspace: Workspace) {
    && boundary.identity == identity
    && boundary.binding == workspace.binding
    && match boundary.kind
       case Initial => identity.task.None? && boundary.lastAccepted.None? && workspace.noAdmittedExecution
       case Task => identity.task.Some? && boundary.lastAccepted.None? && workspace.lifecycle == RunningLifecycle
       case StoppedBoundary =>
         && workspace.lifecycle == StoppedLifecycle
         && (identity.task.Some? ==> boundary.lastAccepted.Some? && boundary.lastAccepted.value != "")
         && (identity.task.None? ==> boundary.lastAccepted.None? && workspace.noAdmittedExecution)
  }

  /** For an identity that names no assignment nothing was ever admitted, and the boundary is the initial one or that
      of a stopped workspace; for one that does, it is its own in a running workspace, or names the execution it last
      accepted in a stopped one. */
  lemma BoundaryMeans(identity: Identity, boundary: Boundary, workspace: Workspace)
    ensures BoundaryFits(identity, boundary, workspace) <==>
      && boundary.identity == identity && boundary.binding == workspace.binding
      && if identity.task.None? then
           workspace.noAdmittedExecution && boundary.lastAccepted.None?
           && (boundary.kind.Initial? || (boundary.kind.StoppedBoundary? && workspace.lifecycle.StoppedLifecycle?))
         else if boundary.kind.Task? then workspace.lifecycle.RunningLifecycle? && boundary.lastAccepted.None?
         else boundary.kind.StoppedBoundary? && workspace.lifecycle.StoppedLifecycle?
              && boundary.lastAccepted.Some? && boundary.lastAccepted.value != ""
  {
  }

  lemma StoppedFits(identity: Identity, boundary: Boundary, workspace: Workspace)
    requires BoundaryFits(identity, boundary, workspace)
    ensures boundary.kind == StoppedBoundary ==> workspace.lifecycle == StoppedLifecycle
  {
  }

  datatype DurableCapture = DurableCapture(id: string, identity: Identity, digest: string, bytes: nat)

  datatype CaptureRow = CaptureRow(identity: Identity, digest: string, bytes: nat, verified: bool)

  datatype CheckpointRow = CheckpointRow(id: string, captureId: string, identity: Identity, digest: string, bytes: nat)

  /** An Unpause that was issued, with the record and the workspace it rested on. */
  datatype Unpause = Unpause(record: Record, workspace: Workspace)

  /** The record says this operation paused the container, and the target is still
      the generation and lifecycle revision it paused. */
  predicate OwnedThaw(u: Unpause) {
    && u.record.pauseOwned
    && u.workspace.identity == u.record.identity
    && u.workspace.identity.generation == u.record.pauseGeneration
    && u.workspace.revision == u.record.pauseRevision
  }

  /** The durable states in which a capture may be holding its container. */
  predicate MayHold(r: Record) {
    r.kind == CaptureKind && (r.phase in {Pausing, Paused, RecoveryRequired} || (r.phase == Capturing && r.pauseOwned))
  }

  /** Only captures pause and capture, only checkpoints verify, only materializations materialize. */
  predicate Fits(r: Record) {
    && (r.phase in {Pausing, Paused, Capturing, Captured} ==> r.kind == CaptureKind)
    && (r.phase == Verifying ==> r.kind == CheckpointKind)
    && (r.phase == Materializing ==> r.kind == MaterializeKind)
  }

  /** Every pause an operation caused is backed by its durable row. */
  predicate Backed(rows: map<Id, Record>, engine: map<string, EngineState>, pausedBy: map<string, Id>) {
    forall box | box in pausedBy ::
      && box in engine && engine[box] == PausedContainer
      && pausedBy[box] in rows && rows[pausedBy[box]].identity.sandbox == box && MayHold(rows[pausedBy[box]])
  }

  /** No row may be holding the container. */
  predicate Free(rows: map<Id, Record>, box: string) {
    forall id | id in rows && MayHold(rows[id]) :: rows[id].identity.sandbox != box
  }

  /** This row may be holding its container, and no other may. */
  predicate SoleHolder(rows: map<Id, Record>, id: Id) {
    && id in rows && MayHold(rows[id])
    && forall other | other in rows && MayHold(rows[other]) && rows[other].identity.sandbox == rows[id].identity.sandbox ::
         other == id
  }

  /** At most one row may be holding any one container. */
  predicate OneHolderEach(rows: map<Id, Record>) {
    forall id | id in rows && MayHold(rows[id]) :: SoleHolder(rows, id)
  }

  /** A row that comes to hold is alone exactly if the container was free. */
  lemma HolderAlone(id: Id, before: map<Id, Record>, after: map<Id, Record>)
    requires OnlyRow(id, before, after) && MayHold(after[id])
    requires id in before ==> !MayHold(before[id])
    ensures SoleHolder(after, id) <==> Free(before, after[id].identity.sandbox)
  {
    forall other | other != id ensures other in after <==> other in before {
    }
    if !Free(before, after[id].identity.sandbox) {
      var other :| other in before && MayHold(before[other]) && before[other].identity.sandbox == after[id].identity.sandbox;
      assert other in after && after[other] == before[other];
    }
  }

  /** A change of one row keeps every container at one holder, if the row's own was free or held by it. */
  lemma OneHolderKept(id: Id, before: map<Id, Record>, after: map<Id, Record>)
    requires OnlyRow(id, before, after) && OneHolderEach(before)
    requires Free(before, after[id].identity.sandbox) || !MayHold(after[id]) || (id in before && MayHold(before[id]))
    ensures OneHolderEach(after)
  {
    forall a | a in after && MayHold(after[a]) ensures SoleHolder(after, a) {
      forall b | b in after && MayHold(after[b]) && after[b].identity.sandbox == after[a].identity.sandbox ensures b == a {
        if a != id && b != id {
          assert SoleHolder(before, a) && b in before;
        }
      }
    }
  }

  /** A row that a capture leaves when its pause fails, and one that pauses the same
      container afterwards: both may hold it, and nothing in the store forbids it. */
  lemma TwoHolders(identity: Identity, revision: int)
    ensures
      var start := Record(CaptureKind, identity, "d", Pending, false, 0, 0, "", "", "");
      var a := Moved(Moved(start, Move(Pending, Pausing, "")), Move(Pausing, RecoveryRequired, "pause_outcome_unknown"));
      var b := Moved(Moved(Moved(start, Move(Pending, Pausing, "")), MoveOwned(Pausing, Paused, identity.generation, revision, "")),
                     MoveOwned(Paused, Capturing, identity.generation, revision, ""));
      var rows := map["a" := a, "b" := b];
      && ValidTransition(Pending, Pausing) && ValidTransition(Pausing, RecoveryRequired)
      && ValidTransition(Pausing, Paused) && ValidTransition(Paused, Capturing)
      && Backed(rows, map[identity.sandbox := PausedContainer], map[identity.sandbox := "b"]) && Fits(a) && Fits(b)
      && !OneHolderEach(rows) && !Free(map["a" := a], identity.sandbox)
  {
    var start := Record(CaptureKind, identity, "d", Pending, false, 0, 0, "", "", "");
    var a := Moved(Moved(start, Move(Pending, Pausing, "")), Move(Pausing, RecoveryRequired, "pause_outcome_unknown"));
    var b := Moved(Moved(Moved(start, Move(Pending, Pausing, "")), MoveOwned(Pausing, Paused, identity.generation, revision, "")),
                   MoveOwned(Paused, Capturing, identity.generation, revision, ""));
    var rows := map["a" := a, "b" := b];
    assert MayHold(rows["a"]) && MayHold(rows["b"]) && "a" != "b";
    assert !SoleHolder(rows, "a");
    assert "a" in map["a" := a];
  }

  // ----- What a checkpoint comes to ------------------------------------------

  const MAX_PER_BOX := 20
  const MAX_BYTES := 0x4000_0000

  function Used(rows: seq<CheckpointRow>, sandbox: string): nat {
    if rows == [] then 0
    else (if rows[0].identity.sandbox == sandbox then rows[0].bytes else 0) + Used(rows[1..], sandbox)
  }

  function Count(rows: seq<CheckpointRow>, sandbox: string): nat {
    if rows == [] then 0
    else (if rows[0].identity.sandbox == sandbox then 1 else 0) + Count(rows[1..], sandbox)
  }

  function Find(rows: seq<CheckpointRow>, id: string): Option<CheckpointRow> {
    if rows == [] then None else if rows[0].id == id then Some(rows[0]) else Find(rows[1..], id)
  }

  /** What a garbage collection is about. */
  datatype Collection = Collection(checkpoints: set<string>, captures: set<string>, digests: set<string>)

  datatype Policy = Policy(maxBytes: int, maxPerBox: int)

  /** What an acceptance reads besides the checkpoints. */
  datatype Catalog = Catalog(captures: map<string, CaptureRow>, policies: map<string, Policy>,
                             collected: Collection, deleting: Collection)

  predicate Concerns(collection: Collection, row: CheckpointRow) {
    row.id in collection.checkpoints || row.captureId in collection.captures || row.digest in collection.digests
  }

  /** It was collected, or is being collected. */
  predicate Collected(catalog: Catalog, row: CheckpointRow) {
    Concerns(catalog.collected, row) || Concerns(catalog.deleting, row)
  }

  function PolicyOf(catalog: Catalog, sandbox: string): Policy {
    if sandbox in catalog.policies then catalog.policies[sandbox] else Policy(MAX_BYTES, MAX_PER_BOX)
  }

  /** The sandbox's quota has room for one more row. */
  predicate Room(catalog: Catalog, checkpoints: seq<CheckpointRow>, row: CheckpointRow) {
    && Used(checkpoints, row.identity.sandbox) + row.bytes <= PolicyOf(catalog, row.identity.sandbox).maxBytes
    && Count(checkpoints, row.identity.sandbox) < PolicyOf(catalog, row.identity.sandbox).maxPerBox
  }

  /** The row an acceptance leaves: an equal row already there, or a new one within quota. */
  predicate Acceptable(catalog: Catalog, checkpoints: seq<CheckpointRow>, row: CheckpointRow) {
    && !Collected(catalog, row)
    && row.captureId in catalog.captures
    && catalog.captures[row.captureId] == CaptureRow(row.identity, row.digest, row.bytes, true)
    && match Find(checkpoints, row.id)
       case Some(existing) => existing == row
       case None => Room(catalog, checkpoints, row)
  }

  // ----- What a capture needs of the store --------------------------------------

  /** The bytes of the sandbox's captures among these. */
  function BytesAmong(captures: map<string, CaptureRow>, ids: seq<string>, sandbox: string): nat {
    if ids == [] then 0
    else
      var row := if ids[0] in captures && captures[ids[0]].identity.sandbox == sandbox then captures[ids[0]].bytes else 0;
      row + BytesAmong(captures, ids[1..], sandbox)
  }

  ghost function CapturedBytes(captures: map<string, CaptureRow>, sandbox: string): nat {
    BytesAmong(captures, SortedKeys(captures.Keys), sandbox)
  }

  lemma {:induction false} BytesJoin(captures: map<string, CaptureRow>, a: seq<string>, b: seq<string>, sandbox: string)
    ensures BytesAmong(captures, a + b, sandbox) == BytesAmong(captures, a, sandbox) + BytesAmong(captures, b, sandbox)
  {
    if a == [] {
      assert a + b == b;
    } else {
      BytesJoin(captures, a[1..], b, sandbox);
      assert (a + b)[1..] == a[1..] + b;
    }
  }

  lemma {:induction false} BytesSame(captures: map<string, CaptureRow>, other: map<string, CaptureRow>, ids: seq<string>, sandbox: string)
    requires forall c | c in ids :: (c in captures <==> c in other) && (c in captures ==> captures[c] == other[c])
    ensures BytesAmong(captures, ids, sandbox) == BytesAmong(other, ids, sandbox)
  {
    if ids != [] {
      assert ids[0] in ids && forall c | c in ids[1..] :: c in ids;
      BytesSame(captures, other, ids[1..], sandbox);
    }
  }

  /** A new capture adds its bytes to its own sandbox and to no other. */
  lemma CaptureAdds(captures: map<string, CaptureRow>, id: string, row: CaptureRow, sandbox: string)
    requires id !in captures
    ensures CapturedBytes(map[], sandbox) == 0
    ensures CapturedBytes(captures[id := row], sandbox) ==
            CapturedBytes(captures, sandbox) + if row.identity.sandbox == sandbox then row.bytes else 0
  {
    hide SortedKeys, BytesAmong, Ascending, Lists;
    var more := captures[id := row];
    assert more.Keys - {id} == captures.Keys;
    var rest := SortedKeys(captures.Keys);
    BytesInserted(more, id, rest, sandbox);
    BytesKnown(rest, captures.Keys);
    BytesSame(more, captures, rest, sandbox);
    NoBytes(sandbox);
  }

  lemma BytesKnown(keys: seq<string>, members: set<string>)
    requires Lists(keys, members)
    ensures forall c | c in keys :: c in members
  {
  }

  lemma NoBytes(sandbox: string)
    ensures CapturedBytes(map[], sandbox) == 0
  {
    var none: map<string, CaptureRow> := map[];
    EmptyListing(SortedKeys(none.Keys), none.Keys);
  }

  /** The listing without one capture misses that capture's bytes. */
  lemma BytesInserted(captures: map<string, CaptureRow>, id: string, rest: seq<string>, sandbox: string)
    requires id in captures && rest == SortedKeys(captures.Keys - {id})
    ensures CapturedBytes(captures, sandbox) ==
            BytesAmong(captures, rest, sandbox) + if captures[id].identity.sandbox == sandbox then captures[id].bytes else 0
  {
    hide SortedKeys, Ascending;
    var keys := SortedKeys(captures.Keys);
    assert id in keys;
    var i :| 0 <= i < |keys| && keys[i] == id;
    WithoutOne(keys, i, captures.Keys);
    AscendingUnique(keys[..i] + keys[i + 1..], rest, captures.Keys - {id});
    BytesAt(captures, keys, i, sandbox);
  }

  lemma BytesAt(captures: map<string, CaptureRow>, keys: seq<string>, i: nat, sandbox: string)
    requires i < |keys| && keys[i] in captures
    ensures BytesAmong(captures, keys, sandbox) == BytesAmong(captures, keys[..i] + keys[i + 1..], sandbox) +
            if captures[keys[i]].identity.sandbox == sandbox then captures[keys[i]].bytes else 0
  {
    var a, b := keys[..i], keys[i..];
    assert keys == a + b && b[1..] == keys[i + 1..];
    BytesJoin(captures, a, b, sandbox);
    BytesJoin(captures, a, b[1..], sandbox);
  }

  /** What the object store would make of a workspace within a budget, if anything. */
  type Images = map<(Workspace, int), DurableCapture>

  function Made(images: Images, workspace: Workspace, budget: int): Option<DurableCapture> {
    if (workspace, budget) in images then Some(images[(workspace, budget)]) else None
  }

  /** What it makes of it: an object of its own identifier. */
  function ImageOf(images: Images, objects: map<string, DurableCapture>,
                   workspace: Workspace, budget: int): Option<DurableCapture> {
    var found := Made(images, workspace, budget);
    if found.Some? && found.value.id in objects && objects[found.value.id] != found.value then None else found
  }

  /** Nothing that was there is lost or changed. */
  ghost predicate Grown<T>(before: map<string, T>, after: map<string, T>) {
    forall k | k in before :: k in after && after[k] == before[k]
  }

  /** How a new capture ends. A receipt is of the image, which the row and the store name, and the container
      is as found. If no command failed, the container is as found anyway, the operation is over, and there is
      a receipt exactly if the store could keep the image. */
  ghost predicate CaptureEnds(row: Record, captures: map<string, CaptureRow>, receipt: Option<DurableCapture>,
                              image: Option<DurableCapture>, catalog: Catalog, asFound: bool, clean: bool, stored: bool) {
    && (receipt.Some? ==>
          && receipt == image && receipt.value.identity == row.identity && asFound
          && row.phase == Captured && row.captureId == receipt.value.id
          && receipt.value.id in captures && captures[receipt.value.id] == RowOf(receipt.value))
    && (clean ==> asFound && row.phase in {Captured, Failed} && (receipt.Some? <==> Keepable(catalog, image, row.identity)))
    && (stored ==> row.phase in {Captured, Failed, RecoveryRequired})
  }

  /** No receipt: some command failed, or the operation did, for want of an image. */
  lemma NoCapture(row: Record, captures: map<string, CaptureRow>, image: Option<DurableCapture>, catalog: Catalog,
                  asFound: bool, clean: bool, stored: bool)
    requires clean ==> asFound && row.phase == Failed && image == None
    requires stored ==> row.phase in {Failed, RecoveryRequired}
    ensures CaptureEnds(row, captures, None, image, catalog, asFound, clean, stored)
  {
  }

  lemma CaptureEndsMeans(row: Record, captures: map<string, CaptureRow>, receipt: Option<DurableCapture>,
                         image: Option<DurableCapture>, catalog: Catalog, asFound: bool, clean: bool, stored: bool)
    requires CaptureEnds(row, captures, receipt, image, catalog, asFound, clean, stored)
    ensures receipt.Some? ==>
      && receipt == image && receipt.value.identity == row.identity && asFound
      && row.phase == Captured && row.captureId == receipt.value.id
      && receipt.value.id in captures && captures[receipt.value.id] == RowOf(receipt.value)
    ensures clean ==> asFound && row.phase in {Captured, Failed} && (receipt.Some? <==> Keepable(catalog, image, row.identity))
    ensures stored ==> row.phase in {Captured, Failed, RecoveryRequired}
  {
  }

  /** The object store's answer stands for the image, unless a command failed. */
  lemma CaptureOfImage(row: Record, captures: map<string, CaptureRow>, receipt: Option<DurableCapture>,
                       capture: Option<DurableCapture>, image: Option<DurableCapture>, catalog: Catalog, asFound: bool, clean: bool, stored: bool)
    requires CaptureEnds(row, captures, receipt, capture, catalog, asFound, clean, stored)
    requires (capture.Some? || clean) ==> capture == image
    ensures CaptureEnds(row, captures, receipt, image, catalog, asFound, clean, stored)
  {
  }

  /** The store takes the capture: it has it already, or it is new, not collected and within the policy. */
  ghost predicate Storable(catalog: Catalog, capture: DurableCapture) {
    if capture.id in catalog.captures then catalog.captures[capture.id] == RowOf(capture)
    else
      && capture.id !in catalog.collected.captures && capture.digest !in catalog.collected.digests
      && CapturedBytes(catalog.captures, capture.identity.sandbox) + capture.bytes <= PolicyOf(catalog, capture.identity.sandbox).maxBytes
  }

  /** There is an image, of this identity, and the store takes it. */
  ghost predicate Keepable(catalog: Catalog, image: Option<DurableCapture>, identity: Identity) {
    image.Some? && image.value.identity == identity && Storable(catalog, image.value)
  }

  /** A stopped workspace needs no pause; a running one, a revision and a running container. */
  predicate Capturable(workspace: Workspace, engine: map<string, EngineState>) {
    || workspace.lifecycle == StoppedLifecycle
    || (workspace.lifecycle == RunningLifecycle && workspace.revision >= 1
        && workspace.identity.sandbox in engine && engine[workspace.identity.sandbox] == Running)
  }

  /** The image of a workspace that can be captured, within what the policy leaves. */
  ghost function ImageFor(catalog: Catalog, images: Images, objects: map<string, DurableCapture>,
                          workspace: Workspace, engine: map<string, EngineState>): Option<DurableCapture> {
    var budget := Budget(catalog, workspace.identity.sandbox);
    if budget > 0 && Capturable(workspace, engine) then ImageOf(images, objects, workspace, budget) else None
  }

  lemma ImageForMeans(catalog: Catalog, images: Images, objects: map<string, DurableCapture>, workspace: Workspace,
                      engine: map<string, EngineState>)
    ensures ImageFor(catalog, images, objects, workspace, engine) ==
            if Budget(catalog, workspace.identity.sandbox) > 0 && Capturable(workspace, engine)
            then ImageOf(images, objects, workspace, Budget(catalog, workspace.identity.sandbox)) else None
  {
  }

  /** What the steps of a new capture ask for, over what they read. */
  lemma NewCapture(catalog: Catalog, objects: map<string, DurableCapture>, images: Images,
                   workspace: Workspace, engine: map<string, EngineState>)
    ensures var identity, policy := workspace.identity, PolicyOf(catalog, workspace.identity.sandbox);
      var used := CapturedBytes(catalog.captures, identity.sandbox);
      var image := Made(images, workspace, policy.maxBytes - used);
      Keepable(catalog, ImageFor(catalog, images, objects, workspace, engine), identity)
      <==>
      && used < policy.maxBytes
      && (workspace.lifecycle == StoppedLifecycle
          || (workspace.lifecycle == RunningLifecycle && workspace.revision >= 1
              && identity.sandbox in engine && engine[identity.sandbox] == Running))
      && image.Some? && image.value.identity == identity
      && (image.value.id in objects ==> objects[image.value.id] == image.value)
      && if image.value.id in catalog.captures then
           catalog.captures[image.value.id] == CaptureRow(identity, image.value.digest, image.value.bytes, true)
         else
           image.value.id !in catalog.collected.captures && image.value.digest !in catalog.collected.digests
           && used + image.value.bytes <= policy.maxBytes
    ensures var used := CapturedBytes(catalog.captures, workspace.identity.sandbox);
      ImageFor(catalog, images, objects, workspace, engine).Some? ==>
        ImageFor(catalog, images, objects, workspace, engine) ==
        Made(images, workspace, PolicyOf(catalog, workspace.identity.sandbox).maxBytes - used)
  {
    hide CapturedBytes, PolicyOf;
  }

  /** What the sandbox's policy leaves for another capture. */
  ghost function Budget(catalog: Catalog, sandbox: string): int {
    var left := PolicyOf(catalog, sandbox).maxBytes - CapturedBytes(catalog.captures, sandbox);
    if left < 0 then 0 else left
  }

  /** Without a policy of its own a sandbox may keep a gibibyte, in twenty checkpoints. */
  lemma DefaultPolicy(catalog: Catalog, sandbox: string)
    ensures sandbox !in catalog.policies ==> PolicyOf(catalog, sandbox) == Policy(1024 * 1024 * 1024, 20)
    ensures sandbox in catalog.policies ==> PolicyOf(catalog, sandbox) == catalog.policies[sandbox]
  {
  }

  function Accept(checkpoints: seq<CheckpointRow>, row: CheckpointRow): seq<CheckpointRow> {
    if Find(checkpoints, row.id).Some? then checkpoints else checkpoints + [row]
  }

  function StableId(id: Id, captureId: string, digest: string): string {
    "checkpoint_" + id + "/" + captureId + "/" + digest
  }

  /** The end of a checkpoint operation: its phase and its checkpoint. */
  datatype Verdict = Verdict(phase: Phase, checkpointId: string)

  function CheckpointVerdict(objects: map<string, DurableCapture>, catalog: Catalog,
                             checkpoints: seq<CheckpointRow>, id: Id, identity: Identity, captureId: string): Verdict {
    if captureId !in objects then Verdict(Failed, "")
    else if captureId !in catalog.captures || !catalog.captures[captureId].verified ||
            catalog.captures[captureId].identity != identity ||
            catalog.captures[captureId].digest != objects[captureId].digest then Verdict(Failed, "")
    else
      var row := RowFor(objects[captureId], id, identity, captureId);
      if Acceptable(catalog, checkpoints, row) then Verdict(Succeeded, row.id) else Verdict(Failed, "")
  }

  function RowFor(capture: DurableCapture, id: Id, identity: Identity, captureId: string): CheckpointRow {
    CheckpointRow(StableId(id, captureId, capture.digest), captureId, identity, capture.digest, capture.bytes)
  }

  /** What a checkpoint needs: the object, its verified row for exactly this identity, nothing of it collected or
      being collected, and an equal checkpoint already there or room for a new one in the quota. */
  lemma VerdictMeans(objects: map<string, DurableCapture>, catalog: Catalog, checkpoints: seq<CheckpointRow>,
                     id: Id, identity: Identity, captureId: string)
    ensures
      var verdict := CheckpointVerdict(objects, catalog, checkpoints, id, identity, captureId);
      && (verdict == Verdict(Failed, "") ||
          (captureId in objects && verdict == Verdict(Succeeded, StableId(id, captureId, objects[captureId].digest))))
      && (verdict.phase == Succeeded <==>
            && captureId in objects && captureId in catalog.captures
            && var digest, bytes := objects[captureId].digest, objects[captureId].bytes;
            && catalog.captures[captureId] == CaptureRow(identity, digest, bytes, true)
            && captureId !in catalog.collected.captures && captureId !in catalog.deleting.captures
            && digest !in catalog.collected.digests && digest !in catalog.deleting.digests
            && var name := StableId(id, captureId, digest);
            && name !in catalog.collected.checkpoints && name !in catalog.deleting.checkpoints
            && if Find(checkpoints, name).Some?
               then Find(checkpoints, name).value == CheckpointRow(name, captureId, identity, digest, bytes)
               else
                 Used(checkpoints, identity.sandbox) + bytes <= PolicyOf(catalog, identity.sandbox).maxBytes
                 && Count(checkpoints, identity.sandbox) + 1 <= PolicyOf(catalog, identity.sandbox).maxPerBox)
  {
    hide PolicyOf, StableId;
  }

  lemma {:induction false} FindAfterAccept(checkpoints: seq<CheckpointRow>, row: CheckpointRow)
    requires Find(checkpoints, row.id) in {None, Some(row)}
    ensures Find(Accept(checkpoints, row), row.id) == Some(row)
  {
    if checkpoints != [] && Find(checkpoints, row.id) == None {
      FindAfterAccept(checkpoints[1..], row);
      assert (checkpoints + [row])[1..] == checkpoints[1..] + [row];
    }
  }

  /** Accepting a checkpoint does not change what that checkpoint comes to, quota
      or no quota: this is why an interrupted acceptance can be repeated. */
  lemma AcceptKeepsVerdict(objects: map<string, DurableCapture>, catalog: Catalog,
                           checkpoints: seq<CheckpointRow>, id: Id, identity: Identity, captureId: string)
    requires captureId in objects
    requires Acceptable(catalog, checkpoints, RowFor(objects[captureId], id, identity, captureId))
    ensures var row := RowFor(objects[captureId], id, identity, captureId);
            CheckpointVerdict(objects, catalog, Accept(checkpoints, row), id, identity, captureId) ==
            CheckpointVerdict(objects, catalog, checkpoints, id, identity, captureId)
  {
    FindAfterAccept(checkpoints, RowFor(objects[captureId], id, identity, captureId));
  }

  lemma {:induction false} UsedAppends(rows: seq<CheckpointRow>, row: CheckpointRow, sandbox: string)
    ensures Used(rows + [row], sandbox) == Used(rows, sandbox) + if row.identity.sandbox == sandbox then row.bytes else 0
    ensures Count(rows + [row], sandbox) == Count(rows, sandbox) + if row.identity.sandbox == sandbox then 1 else 0
  {
    if rows == [] {
      assert [row][1..] == [];
    } else {
      UsedAppends(rows[1..], row, sandbox);
      assert (rows + [row])[1..] == rows[1..] + [row];
    }
  }

  lemma {:induction false} FindAppends(rows: seq<CheckpointRow>, row: CheckpointRow, id: string)
    ensures Find(rows + [row], id) ==
            if Find(rows, id).Some? then Find(rows, id) else if row.id == id then Some(row) else None
  {
    if rows != [] {
      FindAppends(rows[1..], row, id);
      assert (rows + [row])[1..] == rows[1..] + [row];
    }
  }

  /** What an acceptance before it does to a checkpoint under another identifier: nothing,
      unless it takes the last room in the same sandbox's quota. */
  lemma VerdictAfterAnother(objects: map<string, DurableCapture>, catalog: Catalog,
                            checkpoints: seq<CheckpointRow>, other: CheckpointRow, id: Id, identity: Identity, captureId: string)
    requires captureId in objects ==> other.id != StableId(id, captureId, objects[captureId].digest)
    ensures var before := CheckpointVerdict(objects, catalog, checkpoints, id, identity, captureId);
            var after := CheckpointVerdict(objects, catalog, Accept(checkpoints, other), id, identity, captureId);
            after == before <==>
            !(before.phase == Succeeded && Find(checkpoints, before.checkpointId).None?
              && other.identity.sandbox == identity.sandbox && Find(checkpoints, other.id).None?
              && !Room(catalog, checkpoints + [other], RowFor(objects[captureId], id, identity, captureId)))
  {
    if captureId in objects {
      FindAppends(checkpoints, other, StableId(id, captureId, objects[captureId].digest));
      UsedAppends(checkpoints, other, identity.sandbox);
    }
  }

  /** What a garbage collection that has gone further does to a checkpoint: nothing,
      unless it would have succeeded and is about something collected. */
  lemma VerdictAfterCollection(objects: map<string, DurableCapture>, catalog: Catalog, more: Catalog,
                               checkpoints: seq<CheckpointRow>, id: Id, identity: Identity, captureId: string)
    requires more.captures == catalog.captures && more.policies == catalog.policies
    requires forall row: CheckpointRow | Collected(catalog, row) :: Collected(more, row)
    ensures var before := CheckpointVerdict(objects, catalog, checkpoints, id, identity, captureId);
            var after := CheckpointVerdict(objects, more, checkpoints, id, identity, captureId);
            after == before <==>
            !(before.phase == Succeeded && Collected(more, RowFor(objects[captureId], id, identity, captureId)))
  {
    hide Collected;
  }

  /** Two interrupted checkpoints of one sandbox, each fine by itself, and room for one:
      whichever recovery takes first succeeds, and the other fails. */
  lemma QuotaRace(identity: Identity)
    ensures
      var capture := DurableCapture("c", identity, "d", MAX_BYTES);
      var objects := map["c" := capture];
      var catalog := Catalog(map["c" := CaptureRow(identity, "d", MAX_BYTES, true)], map[],
                             Collection({}, {}, {}), Collection({}, {}, {}));
      var a, b := RowFor(capture, "a", identity, "c"), RowFor(capture, "b", identity, "c");
      && CheckpointVerdict(objects, catalog, [], "a", identity, "c") == Verdict(Succeeded, a.id)
      && CheckpointVerdict(objects, catalog, [], "b", identity, "c") == Verdict(Succeeded, b.id)
      && CheckpointVerdict(objects, catalog, Accept([], a), "b", identity, "c") == Verdict(Failed, "")
      && CheckpointVerdict(objects, catalog, Accept([], b), "a", identity, "c") == Verdict(Failed, "")
  {
    var capture := DurableCapture("c", identity, "d", MAX_BYTES);
    var a, b := RowFor(capture, "a", identity, "c"), RowFor(capture, "b", identity, "c");
    assert a.id[|"checkpoint_"|] == 'a' && b.id[|"checkpoint_"|] == 'b';
    FindAppends([], a, b.id);
    FindAppends([], b, a.id);
    UsedAppends([], a, identity.sandbox);
    UsedAppends([], b, identity.sandbox);
    assert [] + [a] == [a] && [] + [b] == [b];
  }

  // ----- What recovery does to the rows -----------------------------------------

  datatype Stores = Stores(ops: map<Id, Record>, catalog: Catalog, objects: map<string, DurableCapture>,
                           checkpoints: seq<CheckpointRow>)

  /** What the checkpoint operation of this row comes to over these checkpoints. */
  function VerdictOver(s: Stores, checkpoints: seq<CheckpointRow>, id: Id): Verdict
    requires id in s.ops
  {
    CheckpointVerdict(s.objects, s.catalog, checkpoints, id, s.ops[id].identity, s.ops[id].captureId)
  }

  /** What it comes to as things stand. */
  function VerdictIn(s: Stores, id: Id): Verdict
    requires id in s.ops
  {
    VerdictOver(s, s.checkpoints, id)
  }

  /** Where a decision may leave the row: decided as `verdict` says, or, after a
      crash, still verifying with nothing lost. */
  ghost predicate DecidedIn(s: Stores, alive: bool, id: Id, verdict: Verdict, captureId: string) {
    id in s.ops &&
    if s.ops[id].phase == Verifying then !alive && s.ops[id].captureId == captureId && VerdictIn(s, id) == verdict
    else Verdict(s.ops[id].phase, s.ops[id].checkpointId) == verdict
  }

  /** The checkpoint this row would store. */
  function RowOfOperation(s: Stores, id: Id): CheckpointRow
    requires id in s.ops && s.ops[id].captureId in s.objects
  {
    RowFor(s.objects[s.ops[id].captureId], id, s.ops[id].identity, s.ops[id].captureId)
  }

  // ----- The checkpoints of a sweep, in turn --------------------------------------

  /** The checkpoints once the verifying rows among these have been decided in turn. */
  function Rolled(s: Stores, ids: seq<Id>): seq<CheckpointRow> {
    if ids == [] then s.checkpoints
    else
      var before, id := Rolled(s, ids[..|ids| - 1]), ids[|ids| - 1];
      if id in s.ops && s.ops[id].phase == Verifying && VerdictOver(s, before, id).phase == Succeeded
      then Accept(before, RowOfOperation(s, id))
      else before
  }

  /** The end of the row at this place: its verdict over what the rows before it leave,
      or, once decided, what it says. */
  function InTurn(s: Stores, order: seq<Id>, place: nat): Verdict
    requires place < |order| && order[place] in s.ops
  {
    var id := order[place];
    if s.ops[id].phase == Verifying then VerdictOver(s, Rolled(s, order[..place]), id)
    else Verdict(s.ops[id].phase, s.ops[id].checkpointId)
  }

  /** Two states in which the same rows have the same checkpoints still before them. */
  ghost predicate SameEnds(s: Stores, t: Stores, order: seq<Id>) {
    forall place | 0 <= place < |order| && order[place] in s.ops && s.ops[order[place]].phase == Verifying ::
      order[place] in t.ops && InTurn(t, order, place) == InTurn(s, order, place)
  }

  lemma {:induction false} RolledIdle(s: Stores, ids: seq<Id>)
    requires forall id | id in ids && id in s.ops :: s.ops[id].phase != Verifying
    ensures Rolled(s, ids) == s.checkpoints
  {
    if ids != [] {
      var before, last := ids[..|ids| - 1], ids[|ids| - 1];
      assert last in ids && forall id | id in before :: id in ids;
      RolledIdle(s, before);
    }
  }

  /** If the rolls agree up to a place, and the rows from there on too, they agree further on. */
  lemma {:induction false} RolledAgree(s: Stores, t: Stores, order: seq<Id>, place: nat, end: nat)
    requires place <= end <= |order| && t.catalog == s.catalog && t.objects == s.objects
    requires Rolled(t, order[..place]) == Rolled(s, order[..place])
    requires forall p | place <= p < end :: (order[p] in s.ops <==> order[p] in t.ops) && (order[p] in s.ops ==> t.ops[order[p]] == s.ops[order[p]])
    ensures Rolled(t, order[..end]) == Rolled(s, order[..end])
    decreases end
  {
    if place < end {
      RolledAgree(s, t, order, place, end - 1);
      assert order[..end][..end - 1] == order[..end - 1];
    }
  }

  /** What recovering one interrupted row may do. */
  ghost predicate Stepped(id: Id, s: Stores, t: Stores, crashOnly: bool, alive: bool) {
    && OnlyRow(id, s.ops, t.ops) && id in s.ops && s.ops[id].phase in INTERRUPTED
    && t.catalog == s.catalog && t.objects == s.objects
    && RowSwept(s.ops[id], t.ops[id])
    && (if s.ops[id].phase == Verifying then Verified(id, s, t) else t.checkpoints == s.checkpoints)
    && (crashOnly && s.ops[id].phase == Verifying ==> DecidedIn(t, alive, id, VerdictIn(s, id), s.ops[id].captureId))
  }

  /** A checkpoint is accepted only on its verdict, and before its row says so. */
  ghost predicate Verified(id: Id, s: Stores, t: Stores)
    requires id in s.ops && id in t.ops
  {
    && (t.checkpoints == s.checkpoints ||
        (VerdictIn(s, id).phase == Succeeded && t.checkpoints == Accept(s.checkpoints, RowOfOperation(s, id))))
    && (t.ops[id].phase == Succeeded ==>
          VerdictIn(s, id).phase == Succeeded && t.checkpoints == Accept(s.checkpoints, RowOfOperation(s, id)))
  }

  /** Recovering the first row that is still verifying, or one that is not, moves no row's end. */
  lemma StepKeepsEnds(s: Stores, t: Stores, order: seq<Id>, place: nat, alive: bool)
    requires place < |order| && Distinct(order) && Stepped(order[place], s, t, true, alive)
    requires forall p | 0 <= p < place && order[p] in s.ops :: s.ops[order[p]].phase != Verifying
    ensures SameEnds(s, t, order)
  {
    var id := order[place];
    assert forall p | 0 <= p < |order| && p != place :: order[p] != id;
    RollsOver(s, t, order, place, alive);
    forall p | 0 <= p < |order| && order[p] in s.ops && s.ops[order[p]].phase == Verifying
      ensures order[p] in t.ops && InTurn(t, order, p) == InTurn(s, order, p)
    {
      hide CheckpointVerdict, RowSwept, Verified;
      if p == place {
        RolledIdle(s, order[..place]);
        RolledIdle(t, order[..place]);
      } else {
        RolledAgree(s, t, order, place + 1, p);
      }
    }
  }

  lemma RollsOver(s: Stores, t: Stores, order: seq<Id>, place: nat, alive: bool)
    requires place < |order| && Distinct(order) && Stepped(order[place], s, t, true, alive)
    requires forall p | 0 <= p < place && order[p] in s.ops :: s.ops[order[p]].phase != Verifying
    ensures Rolled(t, order[..place + 1]) == Rolled(s, order[..place + 1])
  {
    hide CheckpointVerdict, Accept, MayHold;
    var id := order[place];
    RolledIdle(s, order[..place]);
    RolledIdle(t, order[..place]);
    assert order[..place + 1][..place] == order[..place];
    if s.ops[id].phase == Verifying && VerdictIn(s, id).phase == Succeeded {
      AcceptTwice(s, id);
    }
  }

  /** Accepting a checkpoint a second time changes nothing. */
  lemma AcceptTwice(s: Stores, id: Id)
    requires id in s.ops && VerdictIn(s, id).phase == Succeeded
    ensures s.ops[id].captureId in s.objects
    ensures var row := RowOfOperation(s, id);
            Accept(Accept(s.checkpoints, row), row) == Accept(s.checkpoints, row)
  {
    FindAfterAccept(s.checkpoints, RowOfOperation(s, id));
  }

  /** An acceptance before it never makes a refused checkpoint acceptable. */
  lemma RefusedStaysRefused(catalog: Catalog, checkpoints: seq<CheckpointRow>, row: CheckpointRow, other: CheckpointRow)
    requires !Acceptable(catalog, checkpoints, row) && Acceptable(catalog, checkpoints, other)
    ensures !Acceptable(catalog, Accept(checkpoints, other), row)
  {
    FindAppends(checkpoints, other, row.id);
    UsedAppends(checkpoints, other, row.identity.sandbox);
  }

  lemma {:induction false} RefusedInTurn(s: Stores, ids: seq<Id>, row: CheckpointRow)
    requires !Acceptable(s.catalog, s.checkpoints, row)
    ensures !Acceptable(s.catalog, Rolled(s, ids), row)
  {
    if ids != [] {
      var id := ids[|ids| - 1];
      RefusedInTurn(s, ids[..|ids| - 1], row);
      if id in s.ops && s.ops[id].phase == Verifying && VerdictOver(s, Rolled(s, ids[..|ids| - 1]), id).phase == Succeeded {
        hide Acceptable;
        RefusedStaysRefused(s.catalog, Rolled(s, ids[..|ids| - 1]), row, RowOfOperation(s, id));
      }
    }
  }

  /** Exactly when a verifying row ends otherwise than it would by itself: it would be
      accepted, and the checkpoints accepted before it in the sweep are why it is not. */
  lemma TurnMatters(s: Stores, order: seq<Id>, place: nat)
    requires place < |order| && order[place] in s.ops && s.ops[order[place]].phase == Verifying
    ensures InTurn(s, order, place) != VerdictIn(s, order[place]) <==>
            VerdictIn(s, order[place]).phase == Succeeded
            && !Acceptable(s.catalog, Rolled(s, order[..place]), RowOfOperation(s, order[place]))
  {
    var id := order[place];
    if s.ops[id].captureId in s.objects && !Acceptable(s.catalog, s.checkpoints, RowOfOperation(s, id)) {
      RefusedInTurn(s, order[..place], RowOfOperation(s, id));
    }
    hide Acceptable;
  }

  /** Where no other row makes the same checkpoint, that is a matter of the quota alone. */
  lemma TurnIsQuota(s: Stores, order: seq<Id>, place: nat)
    requires place < |order| && order[place] in s.ops && s.ops[order[place]].phase == Verifying
    requires VerdictIn(s, order[place]).phase == Succeeded && OwnCheckpoint(s, order[place])
    requires Distinct(order)
    ensures var row := RowOfOperation(s, order[place]);
            Acceptable(s.catalog, Rolled(s, order[..place]), row) <==>
            Find(s.checkpoints, row.id).Some? || Room(s.catalog, Rolled(s, order[..place]), row)
  {
    OthersNotFound(s, order[..place], order[place]);
  }

  /** No other verifying row makes a checkpoint of this identifier. */
  predicate OwnCheckpoint(s: Stores, id: Id)
    requires id in s.ops
  {
    forall other | other in s.ops && other != id && s.ops[other].phase == Verifying ::
      s.ops[id].captureId in s.objects && s.ops[other].captureId in s.objects ==>
        RowOfOperation(s, id).id != RowOfOperation(s, other).id
  }

  lemma {:induction false} OthersNotFound(s: Stores, ids: seq<Id>, id: Id)
    requires id in s.ops && s.ops[id].captureId in s.objects && OwnCheckpoint(s, id) && id !in ids
    ensures Find(Rolled(s, ids), RowOfOperation(s, id).id) == Find(s.checkpoints, RowOfOperation(s, id).id)
  {
    if ids != [] {
      var before, other := ids[..|ids| - 1], ids[|ids| - 1];
      assert other in ids && forall o | o in before :: o in ids;
      OthersNotFound(s, before, id);
      if other in s.ops && s.ops[other].phase == Verifying && VerdictOver(s, Rolled(s, before), other).phase == Succeeded {
        FindAppends(Rolled(s, before), RowOfOperation(s, other), RowOfOperation(s, id).id);
      }
    }
  }

  /** Two verifying rows of different sandboxes, which store different checkpoints. */
  predicate Independent(s: Stores, id: Id, other: Id)
    requires id in s.ops && other in s.ops
  {
    && s.ops[id].identity.sandbox != s.ops[other].identity.sandbox
    && (s.ops[id].captureId in s.objects && s.ops[other].captureId in s.objects ==>
          RowOfOperation(s, id).id != RowOfOperation(s, other).id)
  }

  /** No other verifying row competes with this one. */
  predicate Alone(s: Stores, id: Id)
    requires id in s.ops
  {
    forall other | other in s.ops && other != id && s.ops[other].phase == Verifying :: Independent(s, id, other)
  }

  /** A row that nothing competes with ends as it would by itself, whatever its place. */
  lemma {:induction false} AloneOver(s: Stores, ids: seq<Id>, id: Id)
    requires id in s.ops && Alone(s, id) && id !in ids
    ensures VerdictOver(s, Rolled(s, ids), id) == VerdictIn(s, id)
  {
    if ids != [] {
      var before, other := ids[..|ids| - 1], ids[|ids| - 1];
      assert other in ids && forall o | o in before :: o in ids;
      AloneOver(s, before, id);
      if other in s.ops && s.ops[other].phase == Verifying && VerdictOver(s, Rolled(s, before), other).phase == Succeeded {
        assert Independent(s, id, other);
        VerdictAfterAnother(s.objects, s.catalog, Rolled(s, before), RowOfOperation(s, other), id, s.ops[id].identity, s.ops[id].captureId);
      }
    }
  }

  lemma AloneInTurn(s: Stores, order: seq<Id>, place: nat)
    requires place < |order| && Distinct(order) && order[place] in s.ops
    requires s.ops[order[place]].phase == Verifying && Alone(s, order[place])
    ensures InTurn(s, order, place) == VerdictIn(s, order[place])
  {
    hide Alone;
    AloneOver(s, order[..place], order[place]);
  }

  // ----- How far a sweep has come --------------------------------------------------

  /** No recovery ends this row: its pause is unknown or not its own, or its target is. */
  predicate Hopeless(r: Record) {
    r.phase in {Pausing, Materializing, RecoveryRequired} || (r.phase == Paused && !r.pauseOwned)
  }

  /** The pause can be given back: the target is the one it was taken on, and it is paused or running. */
  predicate Returnable(r: Record, registration: Option<Workspace>, engine: map<string, EngineState>) {
    && registration.Some? && registration.value.identity.generation == r.pauseGeneration
    && registration.value.revision == r.pauseRevision
    && r.identity.sandbox in engine && engine[r.identity.sandbox] in {PausedContainer, Running}
  }

  /** The registered workspace, if there is one for exactly this identity. */
  function Registered(workspaces: map<Identity, Workspace>, identity: Identity): Option<Workspace> {
    if identity in workspaces then Some(workspaces[identity].(identity := identity)) else None
  }

  /** Recovery ends this interrupted capture or materialization. */
  predicate Ends(r: Record, workspaces: map<Identity, Workspace>, engine: map<string, EngineState>) {
    r.phase in {Paused, Capturing}
    && if r.pauseOwned then Returnable(r, Registered(workspaces, r.identity), engine) else r.phase == Capturing
  }

  /** In the terms of the row: it captures without a pause, or the pause is its own, its generation and revision
      are those registered, and its container is paused or runs. */
  lemma EndsMeans(r: Record, workspaces: map<Identity, Workspace>, engine: map<string, EngineState>)
    ensures Ends(r, workspaces, engine) <==>
      || (r.phase == Capturing && !r.pauseOwned)
      || (r.phase in {Paused, Capturing} && r.pauseOwned
          && r.identity in workspaces && r.pauseGeneration == r.identity.generation
          && r.pauseRevision == workspaces[r.identity].revision
          && r.identity.sandbox in engine && engine[r.identity.sandbox] != Stopped)
  {
  }

  /** Recovery ends the row at this place without an error, or finds it over. */
  ghost predicate EndsWell(s: Stores, order: seq<Id>, place: nat, workspaces: map<Identity, Workspace>, engine: map<string, EngineState>)
    requires place < |order|
  {
    order[place] in s.ops && s.ops[order[place]].phase in INTERRUPTED ==>
      if s.ops[order[place]].phase == Verifying then InTurn(s, order, place).phase == Succeeded
      else Ends(s.ops[order[place]], workspaces, engine)
  }

  /** Containers may have been thawed; nothing else happened to them. */
  predicate Eased(before: map<string, EngineState>, after: map<string, EngineState>) {
    && after.Keys == before.Keys
    && forall box | box in before :: after[box] == before[box] || (before[box] == PausedContainer && after[box] == Running)
  }

  /** A sweep starts nothing: no row comes to verify or to hold, and what waits for an operator stays. */
  predicate RowSwept(before: Record, after: Record) {
    && after.identity == before.identity && after.kind == before.kind
    && (after.phase == Verifying ==> after == before)
    && (before.phase == RecoveryRequired ==> after == before)
    && (MayHold(after) ==> MayHold(before))
  }

  /** The rows from place `n` on are as they were, and the others are over unless some error was met. */
  ghost predicate Swept(s: Stores, t: Stores, order: seq<Id>, n: nat, clean: bool) {
    && n <= |order| && t.ops.Keys == s.ops.Keys && t.catalog == s.catalog && t.objects == s.objects
    && (forall p | n <= p < |order| && order[p] in s.ops :: t.ops[order[p]] == s.ops[order[p]])
    && (forall id | id in t.ops && s.ops[id].phase !in INTERRUPTED :: t.ops[id] == s.ops[id])
    && (forall id | id in t.ops :: RowSwept(s.ops[id], t.ops[id]))
    && (clean ==> forall p | 0 <= p < n && order[p] in t.ops :: t.ops[order[p]].phase !in INTERRUPTED)
    && (clean ==> forall p | 0 <= p < n && order[p] in t.ops && s.ops[order[p]].phase in INTERRUPTED :: !Hopeless(s.ops[order[p]]))
  }

  lemma SweepStarts(s: Stores, order: seq<Id>)
    ensures Swept(s, s, order, 0, true)
  {
  }

  lemma SweepPending(s: Stores, t: Stores, order: seq<Id>, n: nat, clean: bool)
    requires Swept(s, t, order, n, clean) && n < |order| && order[n] in s.ops
    ensures order[n] in t.ops && t.ops[order[n]] == s.ops[order[n]] && t.ops.Keys == s.ops.Keys
  {
    hide RowSwept;
  }

  lemma EasedChain(a: map<string, EngineState>, b: map<string, EngineState>, c: map<string, EngineState>)
    requires Eased(a, b) && Eased(b, c)
    ensures Eased(a, c)
  {
  }

  lemma SweepPasses(s: Stores, t: Stores, order: seq<Id>, n: nat, clean: bool)
    requires Swept(s, t, order, n, clean) && n < |order| && order[n] in s.ops && s.ops[order[n]].phase !in INTERRUPTED
    ensures Swept(s, t, order, n + 1, clean)
  {
    hide RowSwept;
  }

  lemma SweepStep(s: Stores, t: Stores, u: Stores, order: seq<Id>, n: nat, clean: bool, recovered: bool,
                  crashOnly: bool, alive: bool)
    requires Swept(s, t, order, n, clean) && n < |order| && Distinct(order) && order[n] in s.ops
    requires Stepped(order[n], t, u, crashOnly, alive)
    requires recovered ==> u.ops[order[n]].phase !in INTERRUPTED && !Hopeless(t.ops[order[n]])
    ensures Swept(s, u, order, n + 1, clean && recovered)
  {
    hide VerdictIn, DecidedIn, Verified, MayHold;
    assert forall p | 0 <= p < |order| && p != n :: order[p] != order[n];
  }

  /** What crashes alone leave of the rows' ends, and of the sweep's own answer if there was none. */
  ghost predicate Turned(s: Stores, t: Stores, order: seq<Id>, n: nat, ok: bool, crashOnly: bool, alive: bool,
                         workspaces: map<Identity, Workspace>, engine: map<string, EngineState>)
  {
    n <= |order| &&
    (crashOnly ==>
      && SameEnds(s, t, order)
      && (alive ==>
            && (forall p | 0 <= p < n && order[p] in t.ops :: t.ops[order[p]].phase != Verifying)
            && (ok <==> forall p | 0 <= p < n :: EndsWell(s, order, p, workspaces, engine))))
  }

  lemma TurnStarts(s: Stores, order: seq<Id>, crashOnly: bool, alive: bool, workspaces: map<Identity, Workspace>,
                   engine: map<string, EngineState>)
    ensures Turned(s, s, order, 0, true, crashOnly, alive, workspaces, engine)
  {
  }

  lemma TurnPasses(s: Stores, t: Stores, order: seq<Id>, n: nat, ok: bool, crashOnly: bool, alive: bool,
                   workspaces: map<Identity, Workspace>, engine: map<string, EngineState>)
    requires Turned(s, t, order, n, ok, crashOnly, alive, workspaces, engine)
    requires n < |order| && order[n] in s.ops && s.ops[order[n]].phase !in INTERRUPTED && t.ops.Keys == s.ops.Keys
    requires t.ops[order[n]] == s.ops[order[n]]
    ensures Turned(s, t, order, n + 1, ok, crashOnly, alive, workspaces, engine)
  {
    hide SameEnds, InTurn, Ends;
  }

  /** How a step recovers: without failures and crashes, with no error exactly if the row ends. */
  ghost predicate Answered(id: Id, t: Stores, recovered: bool, workspaces: map<Identity, Workspace>, engine: map<string, EngineState>)
    requires id in t.ops
  {
    recovered <==> if t.ops[id].phase == Verifying then VerdictIn(t, id).phase == Succeeded else Ends(t.ops[id], workspaces, engine)
  }

  lemma TurnStep(s: Stores, t: Stores, u: Stores, order: seq<Id>, n: nat, ok: bool, crashOnly: bool, alive: bool,
                 recovered: bool, crashOnlyNow: bool, aliveNow: bool,
                 workspaces: map<Identity, Workspace>, start: map<string, EngineState>, engine: map<string, EngineState>)
    requires Turned(s, t, order, n, ok, crashOnly, alive, workspaces, start) && Eased(start, engine)
    requires n < |order| && Distinct(order) && order[n] in s.ops && s.ops[order[n]].phase in INTERRUPTED
    requires t.ops.Keys == s.ops.Keys && t.ops[order[n]] == s.ops[order[n]]
    requires Stepped(order[n], t, u, crashOnlyNow, aliveNow)
    requires (crashOnlyNow ==> crashOnly) && (aliveNow ==> alive) && (!alive ==> u == t)
    requires crashOnlyNow && aliveNow ==> Answered(order[n], t, recovered, workspaces, engine)
    ensures Turned(s, u, order, n + 1, ok && recovered, crashOnlyNow, aliveNow, workspaces, start)
  {
    if crashOnlyNow && alive {
      StepKeepsEnds(t, u, order, n, aliveNow);
      EndsChain(s, t, u, order, n);
      assert forall p | 0 <= p < |order| && p != n :: order[p] != order[n];
      if aliveNow {
        AnswerInTurn(s, t, order, n, recovered, workspaces, start, engine);
      }
      StepDecides(order[n], t, u, aliveNow);
    }
    hide SameEnds, InTurn, Ends, EndsWell, Stepped, Answered;
  }

  lemma StepDecides(id: Id, t: Stores, u: Stores, alive: bool)
    requires Stepped(id, t, u, true, alive)
    ensures id in u.ops && u.ops == t.ops[id := u.ops[id]] && (alive ==> u.ops[id].phase != Verifying)
  {
  }

  lemma AnswerInTurn(s: Stores, t: Stores, order: seq<Id>, n: nat, recovered: bool,
                     workspaces: map<Identity, Workspace>, start: map<string, EngineState>, engine: map<string, EngineState>)
    requires n < |order| && order[n] in s.ops && order[n] in t.ops && s.ops[order[n]].phase in INTERRUPTED
    requires t.ops[order[n]] == s.ops[order[n]]
    requires SameEnds(s, t, order) && Eased(start, engine)
    requires forall p | 0 <= p < n && order[p] in t.ops :: t.ops[order[p]].phase != Verifying
    requires Answered(order[n], t, recovered, workspaces, engine)
    ensures recovered <==> EndsWell(s, order, n, workspaces, start)
  {
    hide CheckpointVerdict;
    RolledIdle(t, order[..n]);
  }

  lemma EndsChain(s: Stores, t: Stores, u: Stores, order: seq<Id>, n: nat)
    requires SameEnds(s, t, order) && SameEnds(t, u, order)
    requires n < |order| && Distinct(order) && OnlyRow(order[n], t.ops, u.ops)
    requires order[n] in s.ops && order[n] in t.ops && t.ops[order[n]] == s.ops[order[n]]
    ensures SameEnds(s, u, order)
  {
    hide Rolled, VerdictOver;
    assert forall p | 0 <= p < |order| && p != n :: order[p] != order[n];
  }

  lemma SweepDone(s: Stores, t: Stores, order: seq<Id>, clean: bool)
    requires Swept(s, t, order, |order|, clean) && Lists(order, s.ops.Keys)
    ensures t.ops.Keys == s.ops.Keys && t.catalog == s.catalog && t.objects == s.objects
    ensures forall id | id in t.ops && s.ops[id].phase !in INTERRUPTED :: t.ops[id] == s.ops[id]
    ensures forall id | id in t.ops :: RowSwept(s.ops[id], t.ops[id])
    ensures clean ==> forall id | id in t.ops :: t.ops[id].phase !in INTERRUPTED
    ensures clean ==> forall id | id in s.ops && s.ops[id].phase in INTERRUPTED :: !Hopeless(s.ops[id])
  {
    hide RowSwept, Hopeless;
    forall id | id in t.ops
      ensures clean ==> t.ops[id].phase !in INTERRUPTED && (s.ops[id].phase in INTERRUPTED ==> !Hopeless(s.ops[id]))
    {
      assert id in order;
      var p :| 0 <= p < |order| && order[p] == id;
    }
  }

  lemma TurnDone(s: Stores, t: Stores, order: seq<Id>, ok: bool, crashOnly: bool, alive: bool,
                 workspaces: map<Identity, Workspace>, engine: map<string, EngineState>)
    requires Turned(s, t, order, |order|, ok, crashOnly, alive, workspaces, engine) && Lists(order, t.ops.Keys)
    ensures crashOnly ==> SameEnds(s, t, order)
    ensures crashOnly && alive ==> forall id | id in t.ops :: t.ops[id].phase != Verifying
    ensures crashOnly && alive ==> (ok <==> forall p | 0 <= p < |order| :: EndsWell(s, order, p, workspaces, engine))
  {
    hide SameEnds, EndsWell;
    forall id | id in t.ops ensures crashOnly && alive ==> t.ops[id].phase != Verifying {
      assert id in order;
      var p :| 0 <= p < |order| && order[p] == id;
    }
  }

  /** Nothing has happened yet. */
  lemma UntouchedTurn(s: Stores, order: seq<Id>)
    ensures SameEnds(s, s, order) && forall id | id in s.ops :: RowSwept(s.ops[id], s.ops[id])
  {
  }

  lemma VerifyingStepped(id: Id, s: Stores, t: Stores, crashOnly: bool, alive: bool)
    requires OnlyRow(id, s.ops, t.ops) && id in s.ops && s.ops[id].phase == Verifying && s.ops[id].kind == CheckpointKind
    requires t.catalog == s.catalog && t.objects == s.objects && Verified(id, s, t)
    requires t.ops[id].phase == Verifying ==> t.ops[id] == s.ops[id]
    requires crashOnly ==> DecidedIn(t, alive, id, VerdictIn(s, id), s.ops[id].captureId)
    ensures Stepped(id, s, t, crashOnly, alive)
  {
    hide DecidedIn, VerdictIn, Verified;
  }

  lemma InterruptedStepped(id: Id, s: Stores, t: Stores, crashOnly: bool, alive: bool)
    requires OnlyRow(id, s.ops, t.ops) && id in s.ops && s.ops[id].phase in INTERRUPTED && s.ops[id].phase != Verifying
    requires t.catalog == s.catalog && t.objects == s.objects && t.checkpoints == s.checkpoints
    requires t.ops[id].phase != Verifying && (MayHold(t.ops[id]) ==> MayHold(s.ops[id]))
    requires s.ops[id].phase == RecoveryRequired ==> t.ops[id] == s.ops[id]
    ensures Stepped(id, s, t, crashOnly, alive)
  {
  }

  // ----- Deciding one checkpoint ------------------------------------------------

  /** What a decision leaves, and answers. */
  ghost predicate Concluded(id: Id, s: Stores, t: Stores, ok: bool, alive: bool, crashOnly: bool) {
    && id in s.ops && id in t.ops && Verified(id, s, t)
    && (t.ops[id] == s.ops[id] || t.ops[id].phase in {Failed, Succeeded})
    && (crashOnly ==> DecidedIn(t, alive, id, VerdictIn(s, id), s.ops[id].captureId))
    && (crashOnly && alive ==> (ok <==> t.ops[id].phase == Succeeded))
    && (ok ==> s.ops[id].captureId in s.objects && t.ops[id].phase == Succeeded
               && VerdictIn(s, id) == Verdict(Succeeded, t.ops[id].checkpointId))
  }

  lemma ConcludedMeans(id: Id, s: Stores, t: Stores, ok: bool, alive: bool, crashOnly: bool)
    requires Concluded(id, s, t, ok, alive, crashOnly) && s.ops[id].phase == Verifying
    ensures ok ==> t.ops[id].phase == Succeeded && VerdictIn(s, id) == Verdict(Succeeded, t.ops[id].checkpointId)
    ensures crashOnly && alive ==> (ok <==> VerdictIn(s, id).phase == Succeeded)
    ensures crashOnly ==> DecidedIn(t, alive, id, VerdictIn(s, id), s.ops[id].captureId)
  {
    hide CheckpointVerdict;
  }

  /** Nothing was accepted: the row failed, rightly unless some command did, or a crash kept it. */
  lemma UndecidedOutcome(id: Id, s: Stores, t: Stores, end: Transition, alive: bool, crashOnly: bool)
    requires id in s.ops && id in t.ops && s.ops[id].phase == Verifying
    requires t.catalog == s.catalog && t.objects == s.objects && t.checkpoints == s.checkpoints
    requires end.to == Failed && end.checkpointId == "" && t.ops[id] in {s.ops[id], Moved(s.ops[id], end)}
    requires crashOnly && alive ==> t.ops[id] == Moved(s.ops[id], end)
    requires crashOnly && t.ops[id] != s.ops[id] ==> VerdictIn(s, id) == Verdict(Failed, "")
    ensures Concluded(id, s, t, false, alive, crashOnly)
  {
    hide CheckpointVerdict;
  }

  /** The acceptance answered with an error: a refusal, or a crash before or after it. */
  lemma RefusedOutcome(id: Id, s: Stores, t: Stores, end: Transition, alive: bool, crashOnly: bool)
    requires id in s.ops && id in t.ops && s.ops[id].phase == Verifying && s.ops[id].captureId in s.objects
    requires t.catalog == s.catalog && t.objects == s.objects
    requires var row := RowOfOperation(s, id);
             && VerdictIn(s, id) == (if Acceptable(s.catalog, s.checkpoints, row) then Verdict(Succeeded, row.id) else Verdict(Failed, ""))
             && (t.checkpoints == s.checkpoints || (Acceptable(s.catalog, s.checkpoints, row) && t.checkpoints == Accept(s.checkpoints, row)))
             && (crashOnly && alive ==> !Acceptable(s.catalog, s.checkpoints, row) && t.ops[id] == Moved(s.ops[id], end))
             && (crashOnly && Acceptable(s.catalog, s.checkpoints, row) ==> t.ops[id] == s.ops[id])
    requires end.to == Failed && end.checkpointId == "" && t.ops[id] in {s.ops[id], Moved(s.ops[id], end)}
    ensures Concluded(id, s, t, false, alive, crashOnly)
  {
    if Acceptable(s.catalog, s.checkpoints, RowOfOperation(s, id)) {
      AcceptKeepsVerdict(s.objects, s.catalog, s.checkpoints, id, s.ops[id].identity, s.ops[id].captureId);
    }
    hide Acceptable, Accept, CheckpointVerdict;
  }

  /** The acceptance happened; the row says so, or a crash kept it from saying so. */
  lemma AcceptedOutcome(id: Id, s: Stores, t: Stores, end: Transition, ok: bool, alive: bool, crashOnly: bool)
    requires id in s.ops && id in t.ops && s.ops[id].phase == Verifying && s.ops[id].captureId in s.objects
    requires t.catalog == s.catalog && t.objects == s.objects
    requires var row := RowOfOperation(s, id);
             && VerdictIn(s, id) == Verdict(Succeeded, row.id) && end.checkpointId == row.id
             && Acceptable(s.catalog, s.checkpoints, row) && t.checkpoints == Accept(s.checkpoints, row)
    requires end.to == Succeeded && t.ops[id] in {s.ops[id], Moved(s.ops[id], end)}
    requires (crashOnly && alive ==> ok) && (ok ==> t.ops[id] == Moved(s.ops[id], end))
    ensures Concluded(id, s, t, ok, alive, crashOnly)
  {
    AcceptKeepsVerdict(s.objects, s.catalog, s.checkpoints, id, s.ops[id].identity, s.ops[id].captureId);
    hide Acceptable, Accept, CheckpointVerdict;
  }

  // ----- The service -----------------------------------------------------------

  class Service {
    var ops: map<Id, Record>
    var captures: map<string, CaptureRow>
    var policies: map<string, Policy>
    var collected: Collection
    var deleting: Collection
    /** The registered workspaces, and what the object store makes of one within a
        budget; not the service's to write, like the three fields before. */
    var workspaces: map<Identity, Workspace>
    var images: Images
    var checkpoints: seq<CheckpointRow>
    var objects: map<string, DurableCapture>
    var engine: map<string, EngineState>
    /** Which operation's pause a paused container is under. */
    ghost var pausedBy: map<string, Id>
    ghost var unpauses: seq<Unpause>
    ghost var engineCalls: nat
    var alive: bool
    var crashOnly: bool
    /** No call of the row store has failed, whatever the others did. */
    ghost var storing: bool

    ghost predicate Valid()
      reads this`ops, this`engine, this`pausedBy, this`unpauses
    {
      PausesBacked() && ThawsOwned() && RowsFit()
    }

    ghost predicate RowsFit()
      reads this`ops
    {
      forall id | id in ops :: Fits(ops[id])
    }

    /** Every pause an operation caused is backed by its durable row. */
    ghost predicate PausesBacked()
      reads this`ops, this`engine, this`pausedBy
    {
      Backed(ops, engine, pausedBy)
    }

    ghost predicate ThawsOwned()
      reads this`unpauses
    {
      forall i | 0 <= i < |unpauses| :: OwnedThaw(unpauses[i])
    }

    constructor (engine: map<string, EngineState>, objects: map<string, DurableCapture>)
      ensures Valid() && ops == map[] && pausedBy == map[] && alive && crashOnly
    {
      ops, captures, checkpoints, this.objects, this.engine := map[], map[], [], objects, engine;
      policies, collected, deleting, workspaces := map[], Collection({}, {}, {}), Collection({}, {}, {}), map[];
      images := map[];
      pausedBy, unpauses, engineCalls, alive, crashOnly, storing := map[], [], 0, true, true, true;
    }

    method Strike() returns (effect: bool, ok: bool)
      modifies this`alive, this`crashOnly
      ensures !old(alive) ==> !effect && !ok && crashOnly == old(crashOnly)
      ensures ok ==> effect && alive
      ensures alive ==> old(alive)
      ensures crashOnly ==> old(crashOnly) && (alive ==> ok)
    {
      var e: bool, a: bool, crash: bool := *, *, *;
      if !alive {
        return false, false;
      }
      alive := !crash;
      effect, ok := e, e && a && !crash;
      crashOnly := crashOnly && (ok || crash);
    }

    method Probe() returns (ok: bool)
      modifies this`alive, this`crashOnly
      ensures ok ==> alive
      ensures alive ==> old(alive)
      ensures crashOnly ==> old(crashOnly) && (alive ==> ok)
    {
      var effect;
      effect, ok := Strike();
    }

    /** A call of the row store. */
    method Store() returns (effect: bool, ok: bool)
      modifies this`alive, this`crashOnly, this`storing
      ensures !old(alive) ==> !effect && !ok && crashOnly == old(crashOnly)
      ensures ok ==> effect && alive
      ensures alive ==> old(alive)
      ensures crashOnly ==> old(crashOnly) && (alive ==> ok)
      ensures storing ==> old(storing) && (alive ==> ok)
    {
      effect, ok := Strike();
      storing := storing && (ok || !alive);
    }

    method Read() returns (ok: bool)
      modifies this`alive, this`crashOnly, this`storing
      ensures ok ==> alive
      ensures alive ==> old(alive)
      ensures crashOnly ==> old(crashOnly) && (alive ==> ok)
      ensures storing ==> old(storing) && (alive ==> ok)
    {
      var effect;
      effect, ok := Store();
    }

    method Resolve(identity: Identity) returns (workspace: Option<Workspace>)
      modifies this`alive, this`crashOnly
      ensures workspace.Some? ==> alive && workspace == Registered(workspaces, identity) && workspace.value.identity == identity
      ensures alive ==> old(alive)
      ensures crashOnly ==> old(crashOnly) && (alive ==> workspace == Registered(workspaces, identity))
    {
      var ok := Probe();
      workspace := if ok then Registered(workspaces, identity) else None;
    }

    // ----- Durable operation rows -------------------------------------------------

    /** A new row starts pending; an existing one must carry the same fence. */
    method PutOperation(id: Id, kind: Kind, identity: Identity, digest: string) returns (ok: bool)
      requires Valid()
      modifies this`ops, this`alive, this`crashOnly, this`storing
      ensures Valid()
      ensures ops == old(ops) ||
              (id !in old(ops) && ops == old(ops)[id := Record(kind, identity, digest, Pending, false, 0, 0, "", "", "")])
      ensures ok ==> alive && id in ops && ops[id].kind == kind && ops[id].identity == identity && ops[id].digest == digest
      ensures alive ==> old(alive)
      ensures crashOnly ==> old(crashOnly)
      ensures crashOnly && alive ==>
        (ok <==> (id in old(ops) ==> old(ops)[id].kind == kind && old(ops)[id].identity == identity && old(ops)[id].digest == digest))
      ensures id in old(ops) ==> ops == old(ops)
      ensures storing ==> old(storing)
      ensures storing && alive && id !in old(ops) ==> ok
    {
      var effect;
      effect, ok := Store();
      if id in ops {
        var same := ops[id].kind == kind && ops[id].identity == identity && ops[id].digest == digest;
        if !same {
          ok := false;
        }
      } else if effect {
        ops := ops[id := Record(kind, identity, digest, Pending, false, 0, 0, "", "", "")];
      }
    }

    /** The row is put and read back: it is about this, and pending if it is new. */
    method Enter(id: Id, kind: Kind, identity: Identity, digest: string) returns (ok: bool)
      requires Valid()
      modifies this`ops, this`alive, this`crashOnly, this`storing
      ensures Valid() && (ops == old(ops) || (id !in old(ops) && id in ops && OnlyRow(id, old(ops), ops)))
      ensures id in ops && ops != old(ops) ==> ops[id].phase == Pending && ops[id].kind == kind && ops[id].identity == identity
      ensures ok ==> alive && OnlyRow(id, old(ops), ops) && id in ops
                     && ops[id].kind == kind && ops[id].identity == identity && ops[id].digest == digest
      ensures id in old(ops) ==> ops == old(ops)
      ensures id !in old(ops) && id in ops ==> ops != old(ops)
      ensures alive ==> old(alive)
      ensures crashOnly ==> old(crashOnly)
      ensures crashOnly && alive ==>
        (ok <==> (id in old(ops) ==> old(ops)[id].kind == kind && old(ops)[id].identity == identity && old(ops)[id].digest == digest))
      ensures storing ==> old(storing)
      ensures storing && alive && id !in old(ops) ==> ok
    {
      hide Valid, PausesBacked, ThawsOwned, RowsFit;
      ok := PutOperation(id, kind, identity, digest);
      if id in ops {
        NewRow(id, old(ops), ops);
      }
      if ok {
        ok := Read();
      }
    }

    /** Compare-and-set on the phase. The caller answers for the pause: a move that
        gives up the states of MayHold must come after the container is free. */
    method Transit(id: Id, t: Transition) returns (ok: bool)
      requires Valid() && id in ops && ops[id].phase == t.from && ValidTransition(t.from, t.to)
      requires Fits(Moved(ops[id], t))
      requires MayHold(Moved(ops[id], t)) || !(ops[id].identity.sandbox in pausedBy && pausedBy[ops[id].identity.sandbox] == id)
      modifies this`ops, this`alive, this`crashOnly, this`storing
      ensures Valid()
      ensures OnlyRow(id, old(ops), ops) && id in ops && ops[id] in {old(ops)[id], Moved(old(ops)[id], t)}
      ensures ok ==> alive && ops[id] == Moved(old(ops)[id], t)
      ensures !old(alive) ==> ops == old(ops)
      ensures alive ==> old(alive)
      ensures crashOnly ==> old(crashOnly) && (alive ==> ok)
      ensures storing ==> old(storing) && (alive ==> ok)
    {
      var effect;
      effect, ok := Store();
      if effect {
        ops := ops[id := Moved(ops[id], t)];
      }
    }

    // ----- The container engine ------------------------------------------------------

    method InspectState(box: string) returns (state: Option<EngineState>)
      modifies this`alive, this`crashOnly, this`engineCalls
      ensures state.Some? ==> alive && box in engine && engine[box] == state.value
      ensures alive ==> old(alive)
      ensures crashOnly ==> old(crashOnly) && (alive ==> (state.Some? <==> box in engine))
    {
      engineCalls := engineCalls + 1;
      var ok := Probe();
      state := if ok && box in engine then Some(engine[box]) else None;
    }

    method Pause(box: string, ghost id: Id) returns (ok: bool)
      requires Valid() && id in ops && ops[id].identity.sandbox == box && MayHold(ops[id])
      modifies this`engine, this`pausedBy, this`engineCalls, this`alive, this`crashOnly
      ensures Valid()
      ensures (engine == old(engine) && pausedBy == old(pausedBy)) ||
              (box in old(engine) && old(engine)[box] == Running &&
               engine == old(engine)[box := PausedContainer] && pausedBy == old(pausedBy)[box := id])
      ensures ok ==> alive && engine != old(engine)
      ensures alive ==> old(alive)
      ensures crashOnly ==> old(crashOnly)
      ensures crashOnly && alive ==> (ok <==> box in old(engine) && old(engine)[box] == Running)
    {
      engineCalls := engineCalls + 1;
      var effect;
      effect, ok := Strike();
      if box !in engine || engine[box] != Running {
        return false;
      }
      if effect {
        engine, pausedBy := engine[box := PausedContainer], pausedBy[box := id];
      }
    }

    method UnpauseOwned(id: Id, workspace: Workspace) returns (ok: bool)
      requires Valid() && id in ops && OwnedThaw(Unpause(ops[id], workspace))
      modifies this`engine, this`pausedBy, this`unpauses, this`engineCalls, this`alive, this`crashOnly
      ensures Valid() && Thawed(ops[id].identity.sandbox, old(engine), old(pausedBy))
      ensures unpauses == old(unpauses) + [Unpause(ops[id], workspace)]
      ensures ok ==> alive && ops[id].identity.sandbox !in pausedBy && ops[id].identity.sandbox in engine
      ensures ok ==> engine == old(engine)[ops[id].identity.sandbox := Running]
      ensures alive ==> old(alive)
      ensures crashOnly ==> old(crashOnly)
      ensures crashOnly && alive ==> (ok <==> PausedNow(ops[id].identity.sandbox, old(engine)))
    {
      unpauses := unpauses + [Unpause(ops[id], workspace)];
      ok := Thaw(ops[id].identity.sandbox);
    }

    static predicate PausedNow(box: string, engine: map<string, EngineState>) {
      box in engine && engine[box] == PausedContainer
    }

    /** The box is as it was, or it runs and no operation pauses it. */
    ghost predicate Thawed(box: string, engine0: map<string, EngineState>, pausedBy0: map<string, Id>)
      reads this`engine, this`pausedBy
    {
      || (engine == engine0 && pausedBy == pausedBy0)
      || (box in engine0 && engine0[box] == PausedContainer && engine == engine0[box := Running] && pausedBy == pausedBy0 - {box})
    }

    lemma Unthawed(box: string)
      ensures Thawed(box, engine, pausedBy)
    {
    }

    method Thaw(box: string) returns (ok: bool)
      requires PausesBacked()
      modifies this`engine, this`pausedBy, this`engineCalls, this`alive, this`crashOnly
      ensures PausesBacked() && Thawed(box, old(engine), old(pausedBy))
      ensures ok ==> alive && box !in pausedBy && box in engine && engine == old(engine)[box := Running]
      ensures alive ==> old(alive)
      ensures crashOnly ==> old(crashOnly)
      ensures crashOnly && alive ==> (ok <==> PausedNow(box, old(engine)))
    {
      engineCalls := engineCalls + 1;
      var effect;
      effect, ok := Strike();
      if box !in engine || engine[box] != PausedContainer {
        return false;
      }
      if effect {
        engine, pausedBy := engine[box := Running], pausedBy - {box};
      }
    }

    // ----- Capture ----------------------------------------------------------------

    lemma SameRow(id: Id)
      requires id in ops
      ensures OnlyRow(id, ops, ops)
    {
    }

    lemma FittingRow(id: Id)
      requires Valid() && id in ops
      ensures Fits(ops[id])
    {
    }

    /** A row outside the holding states holds no container. */
    lemma NotHolding(id: Id)
      requires Valid() && id in ops && !MayHold(ops[id])
      ensures !(ops[id].identity.sandbox in pausedBy && pausedBy[ops[id].identity.sandbox] == id)
    {
    }

    method FailPending(id: Id, error: string)
      requires Valid() && id in ops && ops[id].phase == Pending
      modifies this`ops, this`alive, this`crashOnly, this`storing
      ensures Valid() && OnlyRow(id, old(ops), ops) && id in ops
      ensures alive ==> old(alive)
      ensures crashOnly ==> old(crashOnly) && (alive ==> ops[id].phase == Failed)
      ensures ops[id].identity == old(ops)[id].identity
      ensures storing ==> old(storing) && (alive ==> ops[id].phase == Failed)
    {
      NotHolding(id);
      var moved := Transit(id, Move(Pending, Failed, error));
    }

    /** Pauses a running container under a durable intent. */
    method Freeze(id: Id, workspace: Workspace) returns (ok: bool)
      requires Valid() && id in ops && ops[id].phase == Pending && ops[id].kind == CaptureKind
      requires ops[id].identity == workspace.identity
      modifies this`ops, this`engine, this`pausedBy, this`engineCalls, this`alive, this`crashOnly, this`storing
      ensures Valid() && OnlyRow(id, old(ops), ops) && id in ops
      ensures ok ==> alive && Owns(ops[id], workspace)
      ensures ops[id].identity == workspace.identity
      ensures ok ==> workspace.revision >= 1 && workspace.identity.sandbox in old(engine) && old(engine)[workspace.identity.sandbox] == Running
      ensures ok ==> engine == old(engine)[workspace.identity.sandbox := PausedContainer]
      // The one row that may hold the container, exactly if there was none before.
      ensures ok ==> (SoleHolder(ops, id) <==> Free(old(ops), workspace.identity.sandbox))
      ensures alive ==> old(alive)
      ensures crashOnly ==> old(crashOnly)
      // If no command fails: exactly when a running container of a registered revision is found.
      ensures crashOnly && alive ==>
        (ok <==> workspace.revision >= 1 && workspace.identity.sandbox in old(engine) && old(engine)[workspace.identity.sandbox] == Running)
      ensures crashOnly && alive && !ok ==> engine == old(engine) && ops[id].phase == Failed
      ensures storing ==> old(storing)
      // If no store call fails, a refused or unanswered pause ends the row or leaves it for an operator.
      ensures storing && alive && !ok ==> ops[id].phase in {Failed, RecoveryRequired}
    {
      SameRow(id);
      hide Valid, PausesBacked, ThawsOwned, RowsFit, OnlyRow, SoleHolder, Free;
      var box := workspace.identity.sandbox;
      if workspace.revision < 1 {
        FailPending(id, "target_changed");
        return false;
      }
      var state := InspectState(box);
      if state != Some(Running) {
        FailPending(id, if state == None then "inspect_failed" else if state == Some(PausedContainer) then "pause_not_owned" else "target_changed");
        return false;
      }
      ok := Transit(id, Move(Pending, Pausing, ""));
      if !ok {
        return;
      }
      ghost var pausing := ops;
      ok := PauseObserved(id, box);
      RowChain(id, old(ops), pausing, ops);
      if !ok {
        return;
      }
      ghost var observed := ops;
      ok := ClaimPause(id, workspace);
      RowChain(id, old(ops), observed, ops);
      if ok {
        HolderAlone(id, old(ops), ops);
      }
    }

    /** The pause was seen: the row claims it, then goes on to capture under it. */
    method ClaimPause(id: Id, workspace: Workspace) returns (ok: bool)
      requires Valid() && id in ops && ops[id].phase == Pausing && ops[id].kind == CaptureKind
      requires ops[id].identity == workspace.identity
      modifies this`ops, this`alive, this`crashOnly, this`storing
      ensures Valid() && OnlyRow(id, old(ops), ops) && id in ops
      ensures ok ==> alive && Owns(ops[id], workspace) && MayHold(ops[id])
      ensures alive ==> old(alive)
      ensures crashOnly ==> old(crashOnly) && (alive ==> ok)
      ensures storing ==> old(storing) && (alive ==> ok)
    {
      SameRow(id);
      hide Valid, PausesBacked, ThawsOwned, RowsFit, OnlyRow;
      ok := Transit(id, MoveOwned(Pausing, Paused, workspace.identity.generation, workspace.revision, ""));
      if !ok {
        return;
      }
      ghost var paused := ops;
      ok := Transit(id, MoveOwned(Paused, Capturing, workspace.identity.generation, workspace.revision, ""));
      RowChain(id, old(ops), paused, ops);
    }

    /** An unanswered pause leaves the row for an operator: nobody knows its effect. */
    method PauseObserved(id: Id, box: string) returns (ok: bool)
      requires Valid() && id in ops && ops[id].phase == Pausing && ops[id].identity.sandbox == box
      requires ops[id].kind == CaptureKind
      modifies this`ops, this`engine, this`pausedBy, this`engineCalls, this`alive, this`crashOnly, this`storing
      ensures Valid() && OnlyRow(id, old(ops), ops) && id in ops
      ensures ok ==> alive && ops == old(ops) && box in old(engine) && old(engine)[box] == Running
      ensures ok ==> engine == old(engine)[box := PausedContainer]
      ensures !ok ==> ops[id].phase in {Pausing, RecoveryRequired}
      ensures alive ==> old(alive)
      ensures crashOnly ==> old(crashOnly)
      ensures crashOnly && alive && box in old(engine) && old(engine)[box] == Running ==> ok
      ensures storing ==> old(storing)
      ensures storing && alive && !ok ==> ops[id] == Moved(old(ops)[id], Move(Pausing, RecoveryRequired, "pause_outcome_unknown"))
    {
      SameRow(id);
      hide Valid, PausesBacked, ThawsOwned, RowsFit, OnlyRow;
      var paused := Pause(box, id);
      if paused {
        var state := InspectState(box);
        if state == Some(PausedContainer) {
          return true;
        }
      }
      var _ := Transit(id, Move(Pausing, RecoveryRequired, "pause_outcome_unknown"));
      return false;
    }

    /** The row claims the pause of exactly this generation and lifecycle revision. */
    static predicate Owns(row: Record, workspace: Workspace) {
      && row.phase == Capturing && row.identity == workspace.identity
      && row.pauseOwned && row.pauseGeneration == workspace.identity.generation
      && row.pauseRevision == workspace.revision
    }

    method KeepForRecovery(id: Id, error: string)
      requires Valid() && id in ops && ops[id].phase in {Paused, Capturing} && ops[id].pauseOwned
      modifies this`ops, this`alive, this`crashOnly, this`storing
      ensures Valid() && OnlyRow(id, old(ops), ops) && id in ops && ops[id].phase in {old(ops)[id].phase, RecoveryRequired}
      ensures ops[id].pauseOwned && MayHold(ops[id])
      ensures !old(alive) ==> ops == old(ops)
      ensures alive ==> old(alive)
      ensures crashOnly ==> old(crashOnly)
      ensures crashOnly && alive ==> ops[id] == old(ops)[id].(phase := RecoveryRequired, captureId := "", checkpointId := "", error := error)
      ensures storing ==> old(storing)
      ensures storing && alive ==> ops[id].phase == RecoveryRequired
    {
      var r := ops[id];
      FittingRow(id);
      var _ := Transit(id, MoveOwned(r.phase, RecoveryRequired, r.pauseGeneration, r.pauseRevision, error));
    }

    /** Gives back a pause this operation owns; whatever prevents that leaves the row
        claiming it. */
    method ThawOwned(id: Id) returns (ok: bool)
      requires Valid() && id in ops && ops[id].phase == Capturing && ops[id].pauseOwned
      modifies this`ops, this`engine, this`pausedBy, this`unpauses, this`engineCalls, this`alive, this`crashOnly, this`storing
      ensures Valid() && OnlyRow(id, old(ops), ops) && id in ops && Thawed(ops[id].identity.sandbox, old(engine), old(pausedBy))
      ensures ok ==> alive && ops == old(ops)
      ensures ok ==> ops[id].identity.sandbox in old(engine) && ops[id].identity.sandbox !in pausedBy
      ensures ok ==> engine == old(engine)[ops[id].identity.sandbox := Running]
      ensures !ok ==> ops[id].phase in {Capturing, RecoveryRequired} && ops[id].pauseOwned
      ensures alive ==> old(alive)
      ensures crashOnly ==> old(crashOnly)
      // If no command fails: exactly when the claimed generation and revision are registered as running, and
      // the container is paused.
      ensures crashOnly && alive ==>
        (ok <==> var r, box := old(ops)[id], old(ops)[id].identity.sandbox;
           && r.pauseGeneration == r.identity.generation
           && r.identity in workspaces && workspaces[r.identity].revision == r.pauseRevision
           && workspaces[r.identity].lifecycle == RunningLifecycle
           && box in old(engine) && old(engine)[box] == PausedContainer)
      // Otherwise the row waits for an operator with its claim, unless the claim is of another generation.
      ensures crashOnly && alive && !ok ==>
        var r := old(ops)[id];
        ops[id] == if r.pauseGeneration != r.identity.generation then r else r.(phase := RecoveryRequired,
          captureId := "", checkpointId := "",
          error := if r.identity in workspaces && workspaces[r.identity].revision == r.pauseRevision
                      && workspaces[r.identity].lifecycle == RunningLifecycle then "pause_state_unknown" else "target_changed")
      ensures storing ==> old(storing)
      // Whatever the engine does, if no store call fails the row waits for an operator unless the container is free.
      ensures storing && alive && !ok && old(ops)[id].pauseGeneration == old(ops)[id].identity.generation ==> ops[id].phase == RecoveryRequired
    {
      SameRow(id);
      Unthawed(ops[id].identity.sandbox);
      hide Valid, PausesBacked, ThawsOwned, RowsFit, OnlyRow, Thawed, MayHold;
      var readable := Read();
      if !readable || ops[id].pauseGeneration != ops[id].identity.generation {
        return false;
      }
      var workspace := Resolve(ops[id].identity);
      if workspace.None? || workspace.value.identity.generation != ops[id].pauseGeneration ||
         workspace.value.revision != ops[id].pauseRevision || workspace.value.lifecycle != RunningLifecycle {
        KeepForRecovery(id, "target_changed");
        return false;
      }
      var state := InspectState(ops[id].identity.sandbox);
      if state != Some(PausedContainer) {
        KeepForRecovery(id, "pause_state_unknown");
        return false;
      }
      ok := UnpauseOwned(id, workspace.value);
      if !ok {
        KeepForRecovery(id, "unpause_failed");
      }
    }

    /** The object store's capture. Its content decides its ID. */
    method StoreCapture(workspace: Workspace, budget: int) returns (capture: Option<DurableCapture>)
      modifies this`objects, this`alive, this`crashOnly
      ensures capture.Some? ==> alive && capture == ImageOf(images, old(objects), workspace, budget)
      ensures capture.Some? ==> capture.value.id in objects && objects[capture.value.id] == capture.value
      ensures Grown(old(objects), objects)
      ensures alive ==> old(alive)
      ensures crashOnly ==> old(crashOnly)
      ensures crashOnly && alive ==> capture == ImageOf(images, old(objects), workspace, budget)
    {
      var found := ImageOf(images, objects, workspace, budget);
      var effect, ok := Strike();
      if effect && found.Some? {
        objects := objects[found.value.id := found.value];
      }
      capture := if ok then found else None;
    }

    /** The sum of the sandbox's captures, against its policy. */
    method CheckpointBudget(sandbox: string) returns (remaining: Option<int>)
      modifies this`alive, this`crashOnly, this`storing
      ensures remaining.Some? ==> alive && remaining.value == Budget(Catalogue(), sandbox)
      ensures alive ==> old(alive)
      ensures crashOnly ==> old(crashOnly) && (alive ==> remaining.Some?)
      ensures storing ==> old(storing) && (alive ==> remaining.Some?)
    {
      var used := UsedBytes(sandbox);
      var ok := Read();
      var left := PolicyOf(Catalogue(), sandbox).maxBytes - used;
      remaining := if ok then Some(if left < 0 then 0 else left) else None;
    }

    /** The database's sum over the rows, here in the order of their identifiers. */
    method UsedBytes(sandbox: string) returns (used: nat)
      ensures used == CapturedBytes(captures, sandbox)
    {
      hide SortedKeys;
      var ids := Gather(captures.Keys);
      ids := SortStrings(ids, captures.Keys);
      used := 0;
      for i := 0 to |ids|
        invariant used + BytesAmong(captures, ids[i..], sandbox) == BytesAmong(captures, ids, sandbox)
      {
        if ids[i] in captures && captures[ids[i]].identity.sandbox == sandbox {
          used := used + captures[ids[i]].bytes;
        }
        assert ids[i..][1..] == ids[i + 1..];
      }
    }

    /** One row per capture: an equal one is accepted again; a new one must not be
        collected and must fit the policy. */
    method PutCapture(capture: DurableCapture) returns (ok: bool)
      modifies this`captures, this`alive, this`crashOnly, this`storing
      ensures captures == old(captures) || (Storable(old(Catalogue()), capture) && captures == old(captures)[capture.id := RowOf(capture)])
      ensures Grown(old(captures), captures)
      ensures ok ==> alive && Storable(old(Catalogue()), capture) && capture.id in captures && captures[capture.id] == RowOf(capture)
      ensures alive ==> old(alive)
      ensures crashOnly ==> old(crashOnly)
      ensures crashOnly && alive ==> (ok <==> Storable(old(Catalogue()), capture))
      ensures storing ==> old(storing)
    {
      var used := UsedBytes(capture.identity.sandbox);
      var effect;
      effect, ok := Store();
      if capture.id in captures {
        ok := ok && captures[capture.id] == RowOf(capture);
      } else if capture.id in collected.captures || capture.digest in collected.digests {
        ok := false;
      } else if used + capture.bytes > PolicyOf(Catalogue(), capture.identity.sandbox).maxBytes {
        ok := false;
      } else if effect {
        captures := captures[capture.id := RowOf(capture)];
      }
    }

    method FailCapturing(id: Id, error: string, captureId: string)
      requires Valid() && id in ops && ops[id].phase == Capturing
      requires !(ops[id].identity.sandbox in pausedBy && pausedBy[ops[id].identity.sandbox] == id)
      modifies this`ops, this`alive, this`crashOnly, this`storing
      ensures Valid() && OnlyRow(id, old(ops), ops) && id in ops
      ensures alive ==> old(alive)
      ensures crashOnly ==> old(crashOnly) && (alive ==> ops[id].phase == Failed)
      ensures storing ==> old(storing) && (alive ==> ops[id].phase == Failed)
    {
      var _ := Transit(id, Move(Capturing, Failed, error).(captureId := captureId));
    }

    method Capture(id: Id, digest: string, identity: Identity, boundary: Boundary) returns (receipt: Option<DurableCapture>)
      requires Valid()
      modifies this`ops, this`captures, this`objects, this`engine, this`pausedBy, this`unpauses, this`engineCalls, this`alive, this`crashOnly, this`storing
      ensures Valid() && (ops == old(ops) || (OnlyRow(id, old(ops), ops) && ops[id].identity == identity))
      // A receipt means a captured row, a verified capture row, and a container left as found.
      ensures receipt.Some? ==> id in ops && ops[id].phase == Captured && ops[id].captureId == receipt.value.id
      ensures receipt.Some? ==> engine == old(engine)
      ensures receipt.Some? && !(id in old(ops) && old(ops)[id].phase == Captured) ==>
                receipt.value.identity == identity && receipt.value.id in captures && captures[receipt.value.id] == RowOf(receipt.value)
      // A replay of a finished operation touches nothing.
      ensures id in old(ops) && old(ops)[id].phase != Pending ==>
                ops == old(ops) && engine == old(engine) && objects == old(objects) && captures == old(captures) &&
                engineCalls == old(engineCalls) && unpauses == old(unpauses)
      ensures id in old(ops) && old(ops)[id].phase !in {Pending, Captured} ==> receipt == None
      // A stopped boundary never pauses anything.
      ensures boundary.kind == StoppedBoundary ==> engine == old(engine) && engineCalls == old(engineCalls)
      ensures alive ==> old(alive)
      ensures crashOnly ==> old(crashOnly)
      // If no command fails, the container is left as found whatever the answer, and no
      // row is left that may hold it.
      ensures crashOnly && alive ==> engine == old(engine) && (ops != old(ops) ==> ops[id].phase in {Captured, Failed})
      // If no store call fails, the row is over or waits for an operator, whatever the engine and the object store did.
      ensures storing && alive && ops != old(ops) ==> ops[id].phase in {Captured, Failed, RecoveryRequired}
      // And exactly this is needed for a receipt of a new capture, which is the image stored.
      ensures crashOnly && alive && (id in old(ops) ==> old(ops)[id].phase == Pending) ==>
        (receipt.Some? <==>
          && (id in old(ops) ==> old(ops)[id].kind == CaptureKind && old(ops)[id].identity == identity && old(ops)[id].digest == digest)
          && identity in workspaces
          && var workspace, policy := workspaces[identity].(identity := identity), PolicyOf(old(Catalogue()), identity.sandbox);
          && var used := CapturedBytes(old(captures), identity.sandbox);
          && BoundaryFits(identity, boundary, workspace) && used < policy.maxBytes
          && (workspace.lifecycle == StoppedLifecycle
              || (workspace.lifecycle == RunningLifecycle && workspace.revision >= 1
                  && identity.sandbox in old(engine) && old(engine)[identity.sandbox] == Running))
          && var image := Made(images, workspace, policy.maxBytes - used);
          && image.Some? && image.value.identity == identity
          && (image.value.id in old(objects) ==> old(objects)[image.value.id] == image.value)
          && if image.value.id in old(captures) then
               old(captures)[image.value.id] == CaptureRow(identity, image.value.digest, image.value.bytes, true)
             else
               image.value.id !in collected.captures && image.value.digest !in collected.digests
               && used + image.value.bytes <= policy.maxBytes)
      ensures receipt.Some? && (id in old(ops) ==> old(ops)[id].phase == Pending) ==>
        identity in workspaces
        && receipt == Made(images, workspaces[identity].(identity := identity),
             PolicyOf(old(Catalogue()), identity.sandbox).maxBytes - CapturedBytes(old(captures), identity.sandbox))
      // A finished one is only read back.
      ensures crashOnly && alive && id in old(ops) && old(ops)[id].phase == Captured ==>
        (receipt.Some? <==>
          && old(ops)[id].kind == CaptureKind && old(ops)[id].identity == identity && old(ops)[id].digest == digest
          && identity in workspaces && BoundaryFits(identity, boundary, workspaces[identity].(identity := identity))
          && old(ops)[id].captureId in old(objects))
      ensures storing ==> old(storing)
    {
      CatalogueMeans();
      hide *;
      receipt := None;
      ghost var catalog := Catalogue();
      var workspace := Target(identity, boundary);
      if workspace.None? {
        return;
      }
      NewCapture(catalog, objects, images, workspace.value, engine);
      receipt := CaptureWorkspace(id, digest, workspace.value);
    }

    /** The registered workspace, if the boundary covers it. */
    method Target(identity: Identity, boundary: Boundary) returns (workspace: Option<Workspace>)
      modifies this`alive, this`crashOnly
      ensures workspace.Some? ==>
        && alive && identity in workspaces && workspace.value == workspaces[identity].(identity := identity)
        && Registered(workspaces, identity) == workspace && BoundaryFits(identity, boundary, workspace.value)
        && (boundary.kind == StoppedBoundary ==> workspace.value.lifecycle == StoppedLifecycle)
      ensures alive ==> old(alive)
      ensures crashOnly ==> old(crashOnly)
      ensures crashOnly && alive ==>
        (workspace.Some? <==> identity in workspaces && BoundaryFits(identity, boundary, workspaces[identity].(identity := identity)))
    {
      hide BoundaryFits;
      workspace := Resolve(identity);
      if workspace.None? {
        return;
      }
      if !BoundaryFits(identity, boundary, workspace.value) {
        return None;
      }
      StoppedFits(identity, boundary, workspace.value);
    }

    lemma CatalogueMeans()
      ensures Catalogue() == Catalog(captures, policies, collected, deleting)
    {
    }

    /** The target is there and the boundary covers it. */
    method CaptureWorkspace(id: Id, digest: string, workspace: Workspace) returns (receipt: Option<DurableCapture>)
      requires Valid() && Registered(workspaces, workspace.identity) == Some(workspace)
      modifies this`ops, this`captures, this`objects, this`engine, this`pausedBy, this`unpauses, this`engineCalls, this`alive, this`crashOnly, this`storing
      ensures Valid() && (ops == old(ops) || (OnlyRow(id, old(ops), ops) && id in ops && ops[id].identity == workspace.identity))
      ensures receipt.Some? ==> id in ops && ops[id].phase == Captured && ops[id].captureId == receipt.value.id && engine == old(engine)
      ensures receipt.Some? && !(id in old(ops) && old(ops)[id].phase == Captured) ==>
        && receipt == ImageFor(old(Catalogue()), images, old(objects), workspace, old(engine))
        && receipt.value.identity == workspace.identity
        && receipt.value.id in captures && captures[receipt.value.id] == RowOf(receipt.value)
      ensures id in old(ops) && old(ops)[id].phase != Pending ==>
        && ops == old(ops) && engine == old(engine) && objects == old(objects) && captures == old(captures)
        && engineCalls == old(engineCalls) && unpauses == old(unpauses) && (receipt.Some? ==> old(ops)[id].phase == Captured)
      ensures workspace.lifecycle == StoppedLifecycle ==> engine == old(engine) && engineCalls == old(engineCalls)
      ensures alive ==> old(alive)
      ensures crashOnly ==> old(crashOnly)
      ensures crashOnly && alive ==> engine == old(engine) && (ops != old(ops) ==> id in ops && ops[id].phase in {Captured, Failed})
      ensures storing && alive && ops != old(ops) ==> id in ops && ops[id].phase in {Captured, Failed, RecoveryRequired}
      ensures crashOnly && alive ==>
        (receipt.Some? <==>
          && (id in old(ops) ==> old(ops)[id].kind == CaptureKind && old(ops)[id].identity == workspace.identity && old(ops)[id].digest == digest)
          && if id !in old(ops) || old(ops)[id].phase == Pending then
               Keepable(old(Catalogue()), ImageFor(old(Catalogue()), images, old(objects), workspace, old(engine)), workspace.identity)
             else old(ops)[id].phase == Captured && old(ops)[id].captureId in old(objects))
      ensures storing ==> old(storing)
    {
      hide *;
      receipt := None;
      var entered := Enter(id, CaptureKind, workspace.identity, digest);
      if !entered {
        return;
      }
      if ops[id].phase == Captured {
        receipt := VerifyObject(ops[id].captureId);
        return;
      }
      if ops[id].phase != Pending {
        return;
      }
      ghost var pending, catalog, image := ops, Catalogue(), ImageFor(Catalogue(), images, objects, workspace, engine);
      receipt := CapturePending(id, workspace);
      RowChain(id, old(ops), pending, ops);
      CaptureEndsMeans(ops[id], captures, receipt, image, catalog, engine == old(engine), crashOnly && alive, storing && alive);
    }

    method VerifyObject(captureId: string) returns (capture: Option<DurableCapture>)
      modifies this`alive, this`crashOnly
      ensures capture.Some? ==> alive && captureId in objects && capture.value == objects[captureId].(id := captureId)
      ensures alive ==> old(alive)
      ensures crashOnly ==> old(crashOnly) && (alive ==> (capture.Some? <==> captureId in objects))
    {
      var ok := Probe();
      if captureId !in objects {
        return None;
      }
      capture := if ok then Some(objects[captureId].(id := captureId)) else None;
    }

    method CapturePending(id: Id, workspace: Workspace) returns (receipt: Option<DurableCapture>)
      requires Valid() && id in ops && ops[id].phase == Pending && ops[id].kind == CaptureKind
      requires ops[id].identity == workspace.identity && Registered(workspaces, workspace.identity) == Some(workspace)
      modifies this`ops, this`captures, this`objects, this`engine, this`pausedBy, this`unpauses, this`engineCalls, this`alive, this`crashOnly, this`storing
      ensures Valid() && OnlyRow(id, old(ops), ops) && id in ops
      ensures ops[id].identity == workspace.identity
      ensures CaptureEnds(ops[id], captures, receipt, ImageFor(old(Catalogue()), images, old(objects), workspace, old(engine)),
                          old(Catalogue()), engine == old(engine), crashOnly && alive, storing && alive)
      ensures workspace.lifecycle == StoppedLifecycle ==> engine == old(engine) && engineCalls == old(engineCalls)
      ensures alive ==> old(alive)
      ensures crashOnly ==> old(crashOnly)
      ensures storing ==> old(storing)
    {
      SameRow(id);
      ImageForMeans(Catalogue(), images, objects, workspace, engine);
      hide *;
      receipt := None;
      ghost var catalog := Catalogue();
      ghost var image := ImageFor(catalog, images, objects, workspace, engine);
      var budget := CheckpointBudget(workspace.identity.sandbox);
      if budget.None? {
        NoCapture(ops[id], captures, image, catalog, true, false, storing && alive);
        return;
      }
      if budget.value <= 0 {
        FailPending(id, "checkpoint_quota");
        NoCapture(ops[id], captures, image, catalog, true, crashOnly && alive, storing && alive);
        return;
      }
      receipt := CaptureWithin(id, workspace, budget.value);
    }

    method CaptureWithin(id: Id, workspace: Workspace, budget: int) returns (receipt: Option<DurableCapture>)
      requires Valid() && id in ops && ops[id].phase == Pending && ops[id].kind == CaptureKind
      requires ops[id].identity == workspace.identity && Registered(workspaces, workspace.identity) == Some(workspace)
      modifies this`ops, this`captures, this`objects, this`engine, this`pausedBy, this`unpauses, this`engineCalls, this`alive, this`crashOnly, this`storing
      ensures Valid() && OnlyRow(id, old(ops), ops) && id in ops && ops[id].identity == workspace.identity
      ensures CaptureEnds(ops[id], captures, receipt,
                          if Capturable(workspace, old(engine)) then ImageOf(images, old(objects), workspace, budget) else None,
                          old(Catalogue()), engine == old(engine), crashOnly && alive, storing && alive)
      ensures workspace.lifecycle == StoppedLifecycle ==> engine == old(engine) && engineCalls == old(engineCalls)
      ensures alive ==> old(alive)
      ensures crashOnly ==> old(crashOnly)
      ensures storing ==> old(storing)
    {
      hide *;
      receipt := None;
      ghost var catalog := Catalogue();
      ghost var image := if Capturable(workspace, engine) then ImageOf(images, objects, workspace, budget) else None;
      var begun := BeginCapturing(id, workspace);
      if !begun {
        NoCapture(ops[id], captures, image, catalog, engine == old(engine), crashOnly && alive, storing && alive);
        return;
      }
      ghost var frozen := ops;
      receipt := CaptureFrozen(id, workspace, budget, old(engine));
      RowChain(id, old(ops), frozen, ops);
    }

    /** The row is capturing, and a running container is paused under it. */
    static predicate Frozen(row: Record, workspace: Workspace, engine0: map<string, EngineState>, engine: map<string, EngineState>) {
      && row.phase == Capturing && row.identity == workspace.identity
      && if workspace.lifecycle == RunningLifecycle
         then Owns(row, workspace) && workspace.identity.sandbox in engine0 && engine0[workspace.identity.sandbox] == Running &&
              engine == engine0[workspace.identity.sandbox := PausedContainer]
         else !row.pauseOwned && engine == engine0
    }

    /** A stopped workspace is captured as it is, a running one under a pause, no other. */
    method BeginCapturing(id: Id, workspace: Workspace) returns (ok: bool)
      requires Valid() && id in ops && ops[id].phase == Pending && ops[id].kind == CaptureKind
      requires ops[id].identity == workspace.identity
      modifies this`ops, this`engine, this`pausedBy, this`engineCalls, this`alive, this`crashOnly, this`storing
      ensures Valid() && OnlyRow(id, old(ops), ops) && id in ops
      ensures ok ==> alive && Frozen(ops[id], workspace, old(engine), engine) && Capturable(workspace, old(engine))
      ensures ops[id].identity == workspace.identity
      ensures workspace.lifecycle == StoppedLifecycle ==> engine == old(engine) && engineCalls == old(engineCalls)
      ensures alive ==> old(alive)
      ensures crashOnly ==> old(crashOnly)
      ensures crashOnly && alive ==> (ok <==> Capturable(workspace, old(engine)))
      ensures crashOnly && alive && !ok ==> engine == old(engine) && ops[id].phase == Failed
      ensures storing ==> old(storing)
      ensures storing && alive && !ok ==> ops[id].phase in {Failed, RecoveryRequired}
    {
      NotHolding(id);
      SameRow(id);
      hide Valid, PausesBacked, ThawsOwned, RowsFit, OnlyRow, SoleHolder, Free;
      if workspace.lifecycle == StoppedLifecycle {
        ok := Transit(id, Move(Pending, Capturing, ""));
      } else if workspace.lifecycle == RunningLifecycle {
        ok := Freeze(id, workspace);
      } else {
        FailPending(id, "target_changed");
        ok := false;
      }
    }

    method CaptureFrozen(id: Id, workspace: Workspace, budget: int, ghost engine0: map<string, EngineState>)
      returns (receipt: Option<DurableCapture>)
      requires Valid() && id in ops && Frozen(ops[id], workspace, engine0, engine) && Registered(workspaces, workspace.identity) == Some(workspace)
      modifies this`ops, this`captures, this`objects, this`engine, this`pausedBy, this`unpauses, this`engineCalls, this`alive, this`crashOnly, this`storing
      ensures Valid() && OnlyRow(id, old(ops), ops) && id in ops && ops[id].identity == workspace.identity
      ensures CaptureEnds(ops[id], captures, receipt, ImageOf(images, old(objects), workspace, budget), old(Catalogue()),
                          engine == engine0, crashOnly && alive, storing && alive)
      ensures workspace.lifecycle != RunningLifecycle ==> engine == old(engine) && engineCalls == old(engineCalls)
      ensures alive ==> old(alive)
      ensures crashOnly ==> old(crashOnly)
      ensures storing ==> old(storing)
    {
      hide *;
      ghost var image, catalog := ImageOf(images, objects, workspace, budget), Catalogue();
      var capture := StoreCapture(workspace, budget);
      receipt := FinishCapture(id, workspace, capture, engine0);
      CaptureOfImage(ops[id], captures, receipt, capture, image, catalog, engine == engine0, crashOnly && alive, storing && alive);
    }

    /** Whatever the object store answered, the pause is given back first. */
    method FinishCapture(id: Id, workspace: Workspace, capture: Option<DurableCapture>, ghost engine0: map<string, EngineState>)
      returns (receipt: Option<DurableCapture>)
      requires Valid() && id in ops && Frozen(ops[id], workspace, engine0, engine) && Registered(workspaces, workspace.identity) == Some(workspace)
      modifies this`ops, this`captures, this`engine, this`pausedBy, this`unpauses, this`engineCalls, this`alive, this`crashOnly, this`storing
      ensures Valid() && OnlyRow(id, old(ops), ops) && id in ops && ops[id].identity == workspace.identity
      ensures CaptureEnds(ops[id], captures, receipt, capture, old(Catalogue()), engine == engine0, crashOnly && alive, storing && alive)
      ensures workspace.lifecycle != RunningLifecycle ==> engine == old(engine) && engineCalls == old(engineCalls)
      ensures alive ==> old(alive)
      ensures crashOnly ==> old(crashOnly)
      ensures storing ==> old(storing)
    {
      hide *;
      receipt := None;
      var free := Unfreeze(id, workspace, engine0);
      if !free {
        NoCapture(ops[id], captures, capture, Catalogue(), engine == engine0, false, storing && alive);
        return;
      }
      receipt := CompleteCapture(id, capture);
    }

    /** Gives the pause back, if there was one. */
    method Unfreeze(id: Id, workspace: Workspace, ghost engine0: map<string, EngineState>) returns (ok: bool)
      requires Valid() && id in ops && Frozen(ops[id], workspace, engine0, engine) && Registered(workspaces, workspace.identity) == Some(workspace)
      modifies this`ops, this`engine, this`pausedBy, this`unpauses, this`engineCalls, this`alive, this`crashOnly, this`storing
      ensures Valid() && OnlyRow(id, old(ops), ops) && id in ops
      ensures ops[id].identity == workspace.identity
      ensures ok ==> ops == old(ops) && ops[id].phase == Capturing && engine == engine0
      ensures ok ==> !(ops[id].identity.sandbox in pausedBy && pausedBy[ops[id].identity.sandbox] == id)
      ensures workspace.lifecycle != RunningLifecycle ==> engine == old(engine) && engineCalls == old(engineCalls)
      ensures alive ==> old(alive)
      ensures crashOnly ==> old(crashOnly)
      ensures crashOnly && alive ==> ok
      ensures storing ==> old(storing)
      ensures storing && alive && !ok ==> ops[id].phase == RecoveryRequired
    {
      SameRow(id);
      if workspace.lifecycle == RunningLifecycle {
        hide Valid, PausesBacked, ThawsOwned, RowsFit, OnlyRow, Thawed;
        ok := ThawOwned(id);
      } else {
        NotHolding(id);
        ok := true;
      }
    }

    /** The container is free again: the result becomes durable, or the failure does. */
    method CompleteCapture(id: Id, capture: Option<DurableCapture>) returns (receipt: Option<DurableCapture>)
      requires Valid() && id in ops && ops[id].phase == Capturing
      requires !(ops[id].identity.sandbox in pausedBy && pausedBy[ops[id].identity.sandbox] == id)
      modifies this`ops, this`captures, this`alive, this`crashOnly, this`storing
      ensures Valid() && OnlyRow(id, old(ops), ops) && id in ops
      ensures CaptureEnds(ops[id], captures, receipt, capture, old(Catalogue()), true, crashOnly && alive, storing && alive)
      ensures ops[id].identity == old(ops)[id].identity
      ensures alive ==> old(alive)
      ensures crashOnly ==> old(crashOnly)
      ensures storing ==> old(storing)
    {
      SameRow(id);
      hide Valid, PausesBacked, ThawsOwned, RowsFit, OnlyRow, Storable;
      receipt := None;
      if capture.None? {
        FailCapturing(id, "capture_failed", "");
        return;
      }
      if capture.value.identity != ops[id].identity {
        FailCapturing(id, "checkpoint_corrupt", "");
        return;
      }
      var put := PutCapture(capture.value);
      if !put {
        FailCapturing(id, "capture_failed", capture.value.id);
        return;
      }
      var moved := Transit(id, Move(Capturing, Captured, "").(captureId := capture.value.id));
      if moved {
        receipt := capture;
      }
    }

    // ----- Checkpoint ---------------------------------------------------------------

    function Catalogue(): Catalog
      reads this`captures, this`policies, this`collected, this`deleting
    {
      Catalog(captures, policies, collected, deleting)
    }

    function Now(): Stores
      reads this`ops, this`captures, this`policies, this`collected, this`deleting, this`objects, this`checkpoints
    {
      Stores(ops, Catalogue(), objects, checkpoints)
    }

    function VerdictOf(id: Id): Verdict
      requires id in ops
      reads this`ops, this`objects, this`captures, this`policies, this`collected, this`deleting, this`checkpoints
    {
      VerdictIn(Now(), id)
    }

    method AcceptCheckpoint(row: CheckpointRow) returns (ok: bool)
      modifies this`checkpoints, this`alive, this`crashOnly, this`storing
      ensures checkpoints == old(checkpoints) ||
              (Acceptable(Catalogue(), old(checkpoints), row) && checkpoints == Accept(old(checkpoints), row))
      ensures ok ==> alive && Acceptable(Catalogue(), old(checkpoints), row) && checkpoints == Accept(old(checkpoints), row)
      ensures !old(alive) ==> checkpoints == old(checkpoints)
      ensures alive ==> old(alive)
      ensures crashOnly ==> old(crashOnly) && (alive ==> (ok <==> Acceptable(Catalogue(), old(checkpoints), row)))
    {
      var effect;
      effect, ok := Store();
      if !Acceptable(Catalogue(), checkpoints, row) {
        return false;
      }
      if effect {
        checkpoints := Accept(checkpoints, row);
      }
    }

    ghost predicate Decided(id: Id, verdict: Verdict, captureId: string)
      reads this`ops, this`objects, this`captures, this`policies, this`collected, this`deleting, this`checkpoints, this`alive
    {
      DecidedIn(Now(), alive, id, verdict, captureId)
    }

    /** Verify the objects, check the capture row, accept the checkpoint, then say
        so. Recovery takes the same steps; it only keeps the capture ID on a failure
        the first attempt clears. */
    method DecideCheckpoint(id: Id, recovering: bool) returns (ok: bool)
      requires Valid() && id in ops && ops[id].phase == Verifying
      modifies this`ops, this`checkpoints, this`alive, this`crashOnly, this`storing
      ensures Valid() && OnlyRow(id, old(ops), ops) && id in ops
      ensures Concluded(id, old(Now()), Now(), ok, alive, crashOnly) && (ok ==> alive)
      ensures !old(alive) ==> ops == old(ops) && checkpoints == old(checkpoints)
      ensures crashOnly ==> old(crashOnly)
      ensures alive ==> old(alive)
    {
      MismatchFails(id);
      hide Valid, PausesBacked, ThawsOwned, RowsFit, OnlyRow, CheckpointVerdict, Matching, VerdictIn, Concluded, Moved;
      var found, sound := VerifyCapture(id);
      var kept := if recovering then ops[id].captureId else "";
      if !sound {
        FailUnsound(id, if found then ops[id].captureId else kept);
        return false;
      }
      ok := AcceptVerified(id, kept);
    }

    method FailUnsound(id: Id, kept: string)
      requires Valid() && id in ops && ops[id].phase == Verifying
      requires crashOnly && alive ==> VerdictOf(id) == Verdict(Failed, "")
      modifies this`ops, this`alive, this`crashOnly, this`storing
      ensures Valid() && OnlyRow(id, old(ops), ops) && id in ops
      ensures Concluded(id, old(Now()), Now(), false, alive, crashOnly)
      ensures !old(alive) ==> ops == old(ops)
      ensures crashOnly ==> old(crashOnly)
      ensures alive ==> old(alive)
    {
      hide Valid, PausesBacked, ThawsOwned, RowsFit, OnlyRow, CheckpointVerdict, VerdictIn, Concluded, Moved;
      ghost var start := Now();
      var end := FailVerifying(id, kept);
      UndecidedOutcome(id, start, Now(), end, alive, crashOnly);
    }

    /** Reads the objects, and, once they are found, the durable capture row. */
    method VerifyCapture(id: Id) returns (found: bool, sound: bool)
      requires id in ops
      modifies this`alive, this`crashOnly, this`storing
      ensures sound ==> found && alive && Matching(id)
      ensures alive ==> old(alive)
      ensures crashOnly ==> old(crashOnly) && (alive ==> (sound <==> Matching(id)))
    {
      var capture := VerifyObject(ops[id].captureId);
      if capture.None? {
        return false, false;
      }
      var readable := Read();
      return true, readable && Matching(id);
    }

    /** The durable capture row describes the stored objects and this identity. */
    predicate Matching(id: Id)
      requires id in ops
      reads this`ops, this`objects, this`captures
    {
      var captureId := ops[id].captureId;
      && captureId in objects && captureId in captures && captures[captureId].verified
      && captures[captureId].identity == ops[id].identity && captures[captureId].digest == objects[captureId].digest
    }

    lemma MismatchFails(id: Id)
      requires id in ops
      ensures !Matching(id) ==> VerdictOf(id) == Verdict(Failed, "")
      ensures Matching(id) ==> ops[id].captureId in objects
    {
    }

    method FailVerifying(id: Id, kept: string) returns (end: Transition)
      requires Valid() && id in ops && ops[id].phase == Verifying
      modifies this`ops, this`alive, this`crashOnly, this`storing
      ensures Valid() && OnlyRow(id, old(ops), ops) && id in ops
      ensures end == Move(Verifying, Failed, "checkpoint_corrupt").(captureId := kept)
      ensures ops[id] in {old(ops)[id], Moved(old(ops)[id], end)}
      ensures !old(alive) ==> ops == old(ops)
      ensures crashOnly && alive ==> ops[id] == Moved(old(ops)[id], end)
      ensures alive ==> old(alive)
      ensures crashOnly ==> old(crashOnly)
    {
      end := Move(Verifying, Failed, "checkpoint_corrupt").(captureId := kept);
      var _ := EndVerifying(id, end);
    }

    method EndVerifying(id: Id, end: Transition) returns (ok: bool)
      requires Valid() && id in ops && ops[id].phase == Verifying && end.from == Verifying && end.to in {Failed, Succeeded}
      modifies this`ops, this`alive, this`crashOnly, this`storing
      ensures Valid() && OnlyRow(id, old(ops), ops) && id in ops && ops[id] in {old(ops)[id], Moved(old(ops)[id], end)}
      ensures ok ==> alive && ops[id] == Moved(old(ops)[id], end)
      ensures !old(alive) ==> ops == old(ops)
      ensures alive ==> old(alive)
      ensures crashOnly ==> old(crashOnly) && (alive ==> ok)
    {
      NotHolding(id);
      hide Valid, PausesBacked, ThawsOwned, RowsFit, OnlyRow;
      ok := Transit(id, end);
    }

    /** The objects and the capture row agree; what is left is the acceptance. */
    method AcceptVerified(id: Id, kept: string) returns (ok: bool)
      requires Valid() && id in ops && ops[id].phase == Verifying && Matching(id)
      modifies this`ops, this`checkpoints, this`alive, this`crashOnly, this`storing
      ensures Valid() && OnlyRow(id, old(ops), ops) && id in ops
      ensures Concluded(id, old(Now()), Now(), ok, alive, crashOnly) && (ok ==> alive)
      ensures !old(alive) ==> ops == old(ops) && checkpoints == old(checkpoints)
      ensures crashOnly ==> old(crashOnly)
      ensures alive ==> old(alive)
    {
      ghost var start := Now();
      var captureId := ops[id].captureId;
      var row := RowFor(objects[captureId], id, ops[id].identity, captureId);
      MatchingVerdict(id);
      hide Valid, PausesBacked, ThawsOwned, RowsFit, OnlyRow, Acceptable, Accept, CheckpointVerdict, Matching, VerdictIn, Concluded, Moved;
      ok := AcceptCheckpoint(row);
      var end := Move(Verifying, Failed, "checkpoint_failed").(captureId := kept);
      if !ok {
        var _ := EndVerifying(id, end);
        RefusedOutcome(id, start, Now(), end, alive, crashOnly);
        return;
      }
      end := Move(Verifying, Succeeded, "").(captureId := captureId, checkpointId := row.id);
      ok := EndVerifying(id, end);
      AcceptedOutcome(id, start, Now(), end, ok, alive, crashOnly);
    }

    lemma MatchingVerdict(id: Id)
      requires id in ops && Matching(id)
      ensures ops[id].captureId in objects
      ensures var row := RowOfOperation(Now(), id);
              VerdictOf(id) == if Acceptable(Catalogue(), checkpoints, row) then Verdict(Succeeded, row.id) else Verdict(Failed, "")
    {
    }

    method Checkpoint(id: Id, digest: string, identity: Identity, captureId: string) returns (checkpointId: Option<string>)
      requires Valid()
      modifies this`ops, this`checkpoints, this`alive, this`crashOnly, this`storing
      ensures Valid()
      ensures ops == old(ops) || (OnlyRow(id, old(ops), ops) && ops[id].identity == identity && ops[id].kind == CheckpointKind)
      ensures checkpointId.Some? ==> id in ops && ops[id].phase == Succeeded && ops[id].checkpointId == checkpointId.value
      // A finished operation is only read; any other one that is not pending is refused.
      ensures id in old(ops) && old(ops)[id].phase != Pending ==> ops == old(ops) && checkpoints == old(checkpoints)
      ensures id in old(ops) && old(ops)[id].phase !in {Pending, Succeeded} ==> checkpointId == None
      // Once verifying, its end is decided by what was there, crash or no crash.
      ensures crashOnly && old(alive) && (id in old(ops) ==> old(ops)[id].phase == Pending) && id in ops && ops[id].phase != Pending ==>
                Decided(id, CheckpointVerdict(objects, Catalogue(), old(checkpoints), id, identity, captureId), captureId)
      // Exactly when a new checkpoint succeeds, if no command fails, and which it is.
      ensures crashOnly && alive && (id in old(ops) ==> old(ops)[id].phase == Pending) ==>
        (checkpointId.Some? <==>
          && (id in old(ops) ==> old(ops)[id].kind == CheckpointKind && old(ops)[id].identity == identity && old(ops)[id].digest == digest)
          && captureId in objects && captureId in captures
          && var digest, bytes := objects[captureId].digest, objects[captureId].bytes;
          && captures[captureId] == CaptureRow(identity, digest, bytes, true)
          && captureId !in collected.captures && captureId !in deleting.captures
          && digest !in collected.digests && digest !in deleting.digests
          && var name := StableId(id, captureId, digest);
          && name !in collected.checkpoints && name !in deleting.checkpoints
          && if Find(old(checkpoints), name).Some?
             then Find(old(checkpoints), name).value == CheckpointRow(name, captureId, identity, digest, bytes)
             else
               Used(old(checkpoints), identity.sandbox) + bytes <= PolicyOf(Catalogue(), identity.sandbox).maxBytes
               && Count(old(checkpoints), identity.sandbox) + 1 <= PolicyOf(Catalogue(), identity.sandbox).maxPerBox)
      ensures checkpointId.Some? && (id in old(ops) ==> old(ops)[id].phase == Pending) ==>
        captureId in objects && checkpointId.value == StableId(id, captureId, objects[captureId].digest)
      // A finished one is only read back.
      ensures crashOnly && alive && id in old(ops) && old(ops)[id].phase == Succeeded ==>
        (checkpointId.Some? <==>
          && old(ops)[id].kind == CheckpointKind && old(ops)[id].identity == identity && old(ops)[id].digest == digest
          && Find(checkpoints, old(ops)[id].checkpointId).Some?
          && Find(checkpoints, old(ops)[id].checkpointId).value.captureId == captureId)
      ensures alive ==> old(alive)
      ensures crashOnly ==> old(crashOnly)
    {
      VerdictMeans(objects, Catalogue(), checkpoints, id, identity, captureId);
      CatalogueMeans();
      hide *;
      checkpointId := None;
      var entered := Enter(id, CheckpointKind, identity, digest);
      if !entered {
        return;
      }
      if ops[id].phase == Succeeded {
        checkpointId := FinishedCheckpoint(id, captureId);
        return;
      }
      if ops[id].phase != Pending {
        return;
      }
      ghost var pending := ops;
      checkpointId := CheckpointPending(id, captureId);
      RowChain(id, old(ops), pending, ops);
    }

    /** The checkpoint that the row names, if it is there and of this capture. */
    method FinishedCheckpoint(id: Id, captureId: string) returns (checkpointId: Option<string>)
      requires id in ops
      modifies this`alive, this`crashOnly, this`storing
      ensures checkpointId.Some? ==> checkpointId.value == ops[id].checkpointId
      ensures alive ==> old(alive)
      ensures crashOnly ==> old(crashOnly)
      ensures crashOnly && alive ==>
        (checkpointId.Some? <==>
          Find(checkpoints, ops[id].checkpointId).Some? && Find(checkpoints, ops[id].checkpointId).value.captureId == captureId)
    {
      var found := Read();
      var row := Find(checkpoints, ops[id].checkpointId);
      if !found || row.None? || row.value.captureId != captureId {
        return None;
      }
      return Some(ops[id].checkpointId);
    }

    method CheckpointPending(id: Id, captureId: string) returns (checkpointId: Option<string>)
      requires Valid() && id in ops && ops[id].phase == Pending && ops[id].kind == CheckpointKind
      modifies this`ops, this`checkpoints, this`alive, this`crashOnly, this`storing
      ensures Valid() && OnlyRow(id, old(ops), ops) && id in ops
      ensures checkpointId.Some? ==> ops[id].phase == Succeeded && ops[id].checkpointId == checkpointId.value
      ensures crashOnly && old(alive) && ops[id].phase != Pending ==>
                Decided(id, CheckpointVerdict(objects, Catalogue(), old(checkpoints), id, ops[id].identity, captureId), captureId)
      ensures checkpointId.Some? ==>
        CheckpointVerdict(objects, Catalogue(), old(checkpoints), id, ops[id].identity, captureId) == Verdict(Succeeded, checkpointId.value)
      ensures crashOnly && alive ==>
        (checkpointId.Some? <==> CheckpointVerdict(objects, Catalogue(), old(checkpoints), id, ops[id].identity, captureId).phase == Succeeded)
      ensures alive ==> old(alive)
      ensures crashOnly ==> old(crashOnly)
    {
      NotHolding(id);
      hide Valid, PausesBacked, ThawsOwned, RowsFit, OnlyRow, Concluded, DecidedIn, CheckpointVerdict;
      checkpointId := None;
      var moved := Transit(id, Move(Pending, Verifying, "").(captureId := captureId));
      if !moved {
        return;
      }
      ghost var verifying := Now();
      var ok := DecideCheckpoint(id, false);
      RowChain(id, old(ops), verifying.ops, ops);
      ConcludedMeans(id, verifying, Now(), ok, alive, crashOnly);
      if ok {
        checkpointId := Some(ops[id].checkpointId);
      }
    }

    // ----- Recovery ------------------------------------------------------------------

    /** One interrupted operation. No error means it is over and holds nothing. */
    method RecoverOperation(id: Id) returns (ok: bool)
      requires Valid() && id in ops && ops[id].phase in INTERRUPTED
      modifies this`ops, this`checkpoints, this`engine, this`pausedBy, this`unpauses, this`engineCalls, this`alive, this`crashOnly, this`storing
      ensures Valid() && Stepped(id, old(Now()), Now(), crashOnly, alive) && id in ops
      ensures ok ==> alive && ops[id].phase in {Failed, Succeeded} && !Hopeless(old(ops)[id])
      ensures old(ops)[id].phase in {Pausing, Materializing, RecoveryRequired, Verifying} ==> engine == old(engine)
      ensures ok && old(ops)[id].phase in {Paused, Capturing} ==> ops[id].phase == Failed
      ensures ok && old(ops)[id].phase in {Paused, Capturing} && old(ops)[id].pauseOwned ==>
                ops[id].identity.sandbox in engine && engine[ops[id].identity.sandbox] == Running
      ensures Eased(old(engine), engine)
      ensures !old(alive) ==> Now() == old(Now())
      ensures alive ==> old(alive)
      ensures crashOnly ==> old(crashOnly)
      ensures crashOnly && alive ==> Answered(id, old(Now()), ok, workspaces, old(engine))
    {
      hide Valid, PausesBacked, ThawsOwned, RowsFit, OnlyRow, CheckpointVerdict, MayHold, Verified, Ends;
      ghost var before := Now();
      SameEngine();
      if ops[id].phase == Verifying {
        FittingRow(id);
        ok := DecideCheckpoint(id, true);
        VerifyingStepped(id, before, Now(), crashOnly, alive);
        return;
      }
      ok := RecoverInterrupted(id);
      InterruptedStepped(id, before, Now(), crashOnly, alive);
    }

    lemma SameEngine()
      ensures Eased(engine, engine)
    {
    }

    /** An interrupted capture or materialization. */
    method RecoverInterrupted(id: Id) returns (ok: bool)
      requires Valid() && id in ops && ops[id].phase in INTERRUPTED && ops[id].phase != Verifying
      modifies this`ops, this`engine, this`pausedBy, this`unpauses, this`engineCalls, this`alive, this`crashOnly, this`storing
      ensures Valid() && OnlyRow(id, old(ops), ops) && id in ops
      ensures ops[id].phase != Verifying && (MayHold(ops[id]) ==> MayHold(old(ops)[id]))
      ensures ok ==> alive && ops[id].phase == Failed && !Hopeless(old(ops)[id])
      ensures Hopeless(old(ops)[id]) ==> engine == old(engine)
      ensures old(ops)[id].phase == RecoveryRequired ==> ops == old(ops)
      ensures ok && old(ops)[id].pauseOwned ==>
                ops[id].identity.sandbox in engine && engine[ops[id].identity.sandbox] == Running
      ensures Eased(old(engine), engine)
      ensures !old(alive) ==> ops == old(ops)
      ensures alive ==> old(alive)
      ensures crashOnly ==> old(crashOnly)
      ensures crashOnly && alive ==> (ok <==> Ends(old(ops)[id], workspaces, old(engine)))
      // Without failures and crashes, exactly these rows end.
      ensures crashOnly && alive ==>
        (ok <==> var r := old(ops)[id];
           || (r.phase == Capturing && !r.pauseOwned)
           || (r.phase in {Paused, Capturing} && r.pauseOwned
               && r.identity in workspaces && r.pauseGeneration == r.identity.generation
               && r.pauseRevision == workspaces[r.identity].revision
               && r.identity.sandbox in old(engine) && old(engine)[r.identity.sandbox] != Stopped))
    {
      EndsMeans(ops[id], workspaces, engine);
      SameRow(id);
      SameEngine();
      FittingRow(id);
      if !MayHold(ops[id]) {
        NotHolding(id);
      }
      hide Valid, PausesBacked, ThawsOwned, RowsFit, OnlyRow, Eased, Ends;
      var r := ops[id];
      if r.phase == Materializing {
        var _ := Transit(id, Move(Materializing, RecoveryRequired, "materialize_outcome_unknown").(checkpointId := r.checkpointId));
        return false;
      }
      if r.phase == Capturing && !r.pauseOwned {
        ok := Transit(id, Move(Capturing, Failed, "capture_interrupted"));
        return;
      }
      if r.phase == Pausing || r.phase == RecoveryRequired || !r.pauseOwned {
        if r.phase == Pausing {
          var _ := Transit(id, Move(Pausing, RecoveryRequired, "pause_outcome_unknown"));
        }
        return false;
      }
      ok := RecoverPause(id);
    }

    /** A pause this operation owns is given back if, and only if, the target is still
        the one it paused. */
    method RecoverPause(id: Id) returns (ok: bool)
      requires Valid() && id in ops && ops[id].phase in {Paused, Capturing} && ops[id].pauseOwned
      modifies this`ops, this`engine, this`pausedBy, this`unpauses, this`engineCalls, this`alive, this`crashOnly, this`storing
      ensures Valid() && OnlyRow(id, old(ops), ops) && id in ops
      ensures ok ==> alive && ops[id].phase == Failed
      ensures ok ==> ops[id].identity.sandbox in engine && engine[ops[id].identity.sandbox] == Running
      ensures ops[id].phase in {old(ops)[id].phase, RecoveryRequired, Failed}
      ensures Eased(old(engine), engine)
      ensures !old(alive) ==> ops == old(ops)
      ensures alive ==> old(alive)
      ensures crashOnly ==> old(crashOnly)
      ensures crashOnly && alive ==>
        (ok <==> var r := old(ops)[id];
           && r.identity in workspaces && r.pauseGeneration == r.identity.generation
           && r.pauseRevision == workspaces[r.identity].revision
           && r.identity.sandbox in old(engine) && old(engine)[r.identity.sandbox] != Stopped)
    {
      SameEngine();
      hide Valid, PausesBacked, ThawsOwned, RowsFit, OnlyRow, Thawed, MayHold, Eased;
      var workspace := Resolve(ops[id].identity);
      if workspace.None? || workspace.value.identity.generation != ops[id].pauseGeneration ||
         workspace.value.revision != ops[id].pauseRevision {
        KeepForRecovery(id, "target_changed");
        return false;
      }
      ok := GiveBack(id, workspace.value);
    }

    /** The target is the one that was paused: it is thawed if it is still paused, and
        then the operation is over. */
    method GiveBack(id: Id, workspace: Workspace) returns (ok: bool)
      requires Valid() && id in ops && ops[id].phase in {Paused, Capturing} && OwnedThaw(Unpause(ops[id], workspace))
      modifies this`ops, this`engine, this`pausedBy, this`unpauses, this`engineCalls, this`alive, this`crashOnly, this`storing
      ensures Valid() && OnlyRow(id, old(ops), ops) && id in ops
      ensures ok ==> alive && ops[id].phase == Failed
      ensures ok ==> ops[id].identity.sandbox in engine && engine[ops[id].identity.sandbox] == Running
      ensures ops[id].phase in {old(ops)[id].phase, RecoveryRequired, Failed}
      ensures Eased(old(engine), engine)
      ensures !old(alive) ==> ops == old(ops)
      ensures alive ==> old(alive)
      ensures crashOnly ==> old(crashOnly)
      ensures crashOnly && alive ==> (ok <==> UpNow(old(ops)[id].identity.sandbox, old(engine)))
    {
      hide Valid, PausesBacked, ThawsOwned, RowsFit, OnlyRow, MayHold, OwnedThaw, Eased, UpNow;
      ok := FreeContainer(id, workspace);
      if ok {
        ok := Transit(id, Move(ops[id].phase, Failed, "capture_interrupted"));
      }
    }

    static predicate UpNow(box: string, engine: map<string, EngineState>) {
      box in engine && engine[box] in {PausedContainer, Running}
    }

    method FreeContainer(id: Id, workspace: Workspace) returns (ok: bool)
      requires Valid() && id in ops && ops[id].phase in {Paused, Capturing} && OwnedThaw(Unpause(ops[id], workspace))
      modifies this`ops, this`engine, this`pausedBy, this`unpauses, this`engineCalls, this`alive, this`crashOnly, this`storing
      ensures Valid() && OnlyRow(id, old(ops), ops) && id in ops
      ensures ok ==> alive && ops == old(ops) && ops[id].identity.sandbox !in pausedBy
      ensures ok ==> ops[id].identity.sandbox in engine && engine[ops[id].identity.sandbox] == Running
      ensures ops[id].phase in {old(ops)[id].phase, RecoveryRequired}
      ensures Eased(old(engine), engine)
      ensures !old(alive) ==> ops == old(ops)
      ensures alive ==> old(alive)
      ensures crashOnly ==> old(crashOnly)
      ensures crashOnly && alive ==> (ok <==> UpNow(old(ops)[id].identity.sandbox, old(engine)))
    {
      var box := ops[id].identity.sandbox;
      SameRow(id);
      RunningNotPaused(box);
      hide Valid, PausesBacked, ThawsOwned, RowsFit, OnlyRow, MayHold, OwnedThaw;
      var state := InspectState(box);
      if state == None {
        OwnedIsClaimed(ops[id], workspace);
        KeepForRecovery(id, "pause_state_unknown");
        return false;
      }
      if state == Some(PausedContainer) {
        ok := UnpauseOwned(id, workspace);
      } else if state == Some(Running) {
        ok := true;
      } else {
        ok := false;
      }
    }

    lemma OwnedIsClaimed(record: Record, workspace: Workspace)
      requires OwnedThaw(Unpause(record, workspace))
      ensures record.pauseOwned
    {
    }

    /** Recovery of everything interrupted, in the order of the identifiers. If it
        reports no error, nothing is left interrupted and no row may hold any
        container. Under crashes alone every verifying row ends, now or in a later
        recovery, in its turn; and if nothing fails, there is no error exactly if
        every row ends well. */
    method Recover() returns (ok: bool)
      requires Valid()
      modifies this`ops, this`checkpoints, this`engine, this`pausedBy, this`unpauses, this`engineCalls, this`alive, this`crashOnly, this`storing
      ensures Valid() && ops.Keys == old(ops).Keys
      ensures forall id | id in ops && old(ops)[id].phase !in INTERRUPTED :: ops[id] == old(ops)[id]
      ensures forall id | id in ops :: RowSwept(old(ops)[id], ops[id])
      ensures ok ==> pausedBy == map[] && forall id | id in ops :: ops[id].phase !in INTERRUPTED && !MayHold(ops[id])
      // An error as long as any row waits for an operator, or holds a pause that is not its own.
      ensures ok ==> forall id | id in old(ops) && old(ops)[id].phase in INTERRUPTED :: !Hopeless(old(ops)[id])
      ensures crashOnly ==> SameEnds(old(Now()), Now(), SortedKeys(old(ops).Keys))
      ensures crashOnly && alive ==> forall id | id in ops :: ops[id].phase != Verifying
      ensures crashOnly && alive ==>
        (ok <==> forall p | 0 <= p < |SortedKeys(old(ops).Keys)| :: EndsWell(old(Now()), SortedKeys(old(ops).Keys), p, workspaces, old(engine)))
      ensures alive ==> old(alive)
      ensures crashOnly ==> old(crashOnly)
    {
      hide Valid, PausesBacked, ThawsOwned, RowsFit, Swept, Turned, SameEnds, EndsWell, RowSwept, Hopeless;
      ghost var start, engine0 := Now(), engine;
      ok := Read();
      var order := Gather(ops.Keys);
      order := SortStrings(order, ops.Keys);
      AscendingDistinct(order);
      SweepStarts(start, order);
      TurnStarts(start, order, crashOnly, alive, workspaces, engine);
      if !ok {
        UntouchedTurn(start, order);
        return;
      }
      ok := Sweep(order, start);
      SweepDone(start, Now(), order, ok);
      TurnDone(start, Now(), order, ok, crashOnly, alive, workspaces, engine0);
      NothingPaused();
    }

    method Sweep(order: seq<Id>, ghost start: Stores) returns (ok: bool)
      requires Valid() && start == Now() && Lists(order, ops.Keys) && Distinct(order)
      modifies this`ops, this`checkpoints, this`engine, this`pausedBy, this`unpauses, this`engineCalls, this`alive, this`crashOnly, this`storing
      ensures Valid() && Swept(start, Now(), order, |order|, ok)
      ensures Turned(start, Now(), order, |order|, ok, crashOnly, alive, workspaces, old(engine))
      ensures alive ==> old(alive)
      ensures crashOnly ==> old(crashOnly)
    {
      hide Valid, PausesBacked, ThawsOwned, RowsFit, Swept, Turned, Stepped, OnlyRow, Answered, Eased, Distinct, Hopeless;
      ok := true;
      var snapshot := ops;
      SweepStarts(start, order);
      TurnStarts(start, order, crashOnly, alive, workspaces, engine);
      SameEngine();
      for n := 0 to |order|
        invariant Valid() && Swept(start, Now(), order, n, ok)
        invariant Turned(start, Now(), order, n, ok, crashOnly, alive, workspaces, old(engine))
        invariant Eased(old(engine), engine)
        invariant alive ==> old(alive)
        invariant crashOnly ==> old(crashOnly)
      {
        var id := order[n];
        assert id in order;
        ghost var before, clean, only, live, engine0 := Now(), ok, crashOnly, alive, engine;
        SweepPending(start, before, order, n, clean);
        if snapshot[id].phase !in INTERRUPTED {
          SweepPasses(start, before, order, n, ok);
          TurnPasses(start, before, order, n, ok, crashOnly, alive, workspaces, old(engine));
          continue;
        }
        var recovered := RecoverOperation(id);
        SweepStep(start, before, Now(), order, n, clean, recovered, crashOnly, alive);
        TurnStep(start, before, Now(), order, n, clean, only, live, recovered, crashOnly, alive, workspaces, old(engine), engine0);
        EasedChain(old(engine), engine0, engine);
        ok := ok && recovered;
      }
    }

    lemma NothingPaused()
      requires Valid()
      ensures (forall id | id in ops :: ops[id].phase !in INTERRUPTED) ==>
                pausedBy == map[] && forall id | id in ops :: !MayHold(ops[id])
    {
      if forall id | id in ops :: ops[id].phase !in INTERRUPTED {
        assert forall box :: box !in pausedBy;
      }
    }

    lemma RunningNotPaused(box: string)
      requires Valid()
      ensures box in engine && engine[box] == Running ==> box !in pausedBy
    {
    }
  }

  // ----- Whole histories -----------------------------------------------------------

  datatype Call =
    | CaptureCall(id: Id, digest: string, identity: Identity, boundary: Boundary)
    | CheckpointCall(id: Id, digest: string, identity: Identity, captureId: string)
    | RecoverCall

  /** Some row waits for an operator. */
  predicate NeedsOperator(rows: map<Id, Record>) {
    exists id :: id in rows && rows[id].phase == RecoveryRequired
  }

  /** One call of a process that may have been restarted before it, in surroundings that
      may have changed. `ok` says whether it returned without an error. */
  method Serve(s: Service, call: Call) returns (ok: bool)
    requires s.Valid()
    modifies s
    ensures s.Valid()
    // A capture of a container that no row may hold, any checkpoint and any recovery
    // leave every container at one holder.
    ensures old(OneHolderEach(s.ops)) && (call.CaptureCall? ==> old(Free(s.ops, call.identity.sandbox))) ==> OneHolderEach(s.ops)
    // A row that waits for an operator stays as it is, and fails every recovery.
    ensures forall id | id in old(s.ops) && old(s.ops)[id].phase == RecoveryRequired :: id in s.ops && s.ops[id] == old(s.ops)[id]
    ensures call.RecoverCall? && old(NeedsOperator(s.ops)) ==> !ok
  {
    s.alive, s.workspaces, s.images := true, *, *;
    s.policies, s.collected, s.deleting := *, *, *;
    assert s.Valid();
    hide *;
    match call
    case CaptureCall(id, digest, identity, boundary) =>
      var receipt := s.Capture(id, digest, identity, boundary);
      ok := receipt.Some?;
      RowServed(id, old(s.ops), s.ops, identity);
    case CheckpointCall(id, digest, identity, captureId) =>
      var checkpointId := s.Checkpoint(id, digest, identity, captureId);
      ok := checkpointId.Some?;
      RowServed(id, old(s.ops), s.ops, identity);
    case RecoverCall =>
      ok := s.Recover();
      SweepServed(old(s.ops), s.ops, ok);
  }

  /** What a capture or a checkpoint leaves of the holders and of the rows that wait. */
  lemma RowServed(id: Id, before: map<Id, Record>, after: map<Id, Record>, identity: Identity)
    requires after == before || (OnlyRow(id, before, after) && after[id].identity == identity)
    requires id in before && before[id].phase != Pending ==> after == before
    ensures OneHolderEach(before) && Free(before, identity.sandbox) ==> OneHolderEach(after)
    ensures OneHolderEach(before) && id in after && after[id].kind == CheckpointKind ==> OneHolderEach(after)
    ensures forall o | o in before && before[o].phase == RecoveryRequired :: o in after && after[o] == before[o]
  {
    if after != before && OneHolderEach(before) && (Free(before, identity.sandbox) || after[id].kind == CheckpointKind) {
      hide OneHolderEach, Free;
      OneHolderKept(id, before, after);
    }
  }

  /** What a sweep leaves of them. */
  lemma SweepServed(before: map<Id, Record>, after: map<Id, Record>, ok: bool)
    requires after.Keys == before.Keys && forall id | id in after :: RowSwept(before[id], after[id])
    requires ok ==> forall id | id in before && before[id].phase in INTERRUPTED :: !Hopeless(before[id])
    ensures OneHolderEach(before) ==> OneHolderEach(after)
    ensures forall o | o in before && before[o].phase == RecoveryRequired :: o in after && after[o] == before[o]
    ensures NeedsOperator(before) ==> !ok
  {
    if OneHolderEach(before) {
      FewerHolders(before, after);
    }
  }

  /** Any calls after a row came to wait for an operator: the row stays, and no recovery
      among them succeeds. */
  method WaitsForOperator(s: Service, id: Id, calls: seq<Call>) returns (recovered: bool)
    requires s.Valid() && id in s.ops && s.ops[id].phase == RecoveryRequired
    modifies s
    ensures s.Valid() && id in s.ops && s.ops[id] == old(s.ops)[id]
    ensures !recovered
  {
    recovered := false;
    for k := 0 to |calls|
      invariant s.Valid() && id in s.ops && s.ops[id] == old(s.ops)[id] && !recovered
    {
      assert NeedsOperator(s.ops);
      var ok := Serve(s, calls[k]);
      recovered := recovered || (calls[k].RecoverCall? && ok);
    }
  }

  /** Rows that keep what they are about, none of which comes to hold. */
  lemma FewerHolders(before: map<Id, Record>, after: map<Id, Record>)
    requires OneHolderEach(before) && after.Keys == before.Keys
    requires forall id | id in after :: RowSwept(before[id], after[id])
    ensures OneHolderEach(after)
  {
    hide MayHold;
    forall a | a in after && MayHold(after[a]) ensures SoleHolder(after, a) {
      assert SoleHolder(before, a);
    }
  }

  /** Any history of captures, checkpoints, recoveries, failures and crashes: every
      container a capture paused is backed by a row of that container that may hold it,
      an operation recorded captured or failed holds none, and every thaw was owned. */
  method History(calls: seq<Call>, engine: map<string, EngineState>, objects: map<string, DurableCapture>) returns (s: Service)
    ensures s.Valid()
    ensures forall box | box in s.pausedBy ::
              s.pausedBy[box] in s.ops && MayHold(s.ops[s.pausedBy[box]]) && s.ops[s.pausedBy[box]].identity.sandbox == box
    ensures forall id, box | id in s.ops && s.ops[id].phase in {Captured, Failed} && box in s.pausedBy :: s.pausedBy[box] != id
    ensures forall i | 0 <= i < |s.unpauses| :: OwnedThaw(s.unpauses[i])
  {
    s := new Service(engine, objects);
    for k := 0 to |calls|
      invariant s.Valid() && fresh(s)
    {
      var _ := Serve(s, calls[k]);
    }
  }

  /** Any history in which a capture is admitted only while no row may hold its
      container: at most one row may hold any one container, and a container that a
      capture paused is held by the row that says so and by no other. */
  method GuardedHistory(calls: seq<Call>, engine: map<string, EngineState>, objects: map<string, DurableCapture>) returns (s: Service)
    ensures s.Valid() && OneHolderEach(s.ops)
    ensures forall box | box in s.pausedBy :: SoleHolder(s.ops, s.pausedBy[box])
  {
    s := new Service(engine, objects);
    for k := 0 to |calls|
      invariant s.Valid() && fresh(s) && OneHolderEach(s.ops)
    {
      if calls[k].CaptureCall? && !Free(s.ops, calls[k].identity.sandbox) {
        continue;
      }
      var _ := Serve(s, calls[k]);
    }
  }

  /** No verifying row competes with this checkpoint. */
  predicate Unrivalled(s: Stores, id: Id, identity: Identity, captureId: string) {
    forall other | other in s.ops && s.ops[other].phase == Verifying ::
      && s.ops[other].identity.sandbox != identity.sandbox
      && (captureId in s.objects && s.ops[other].captureId in s.objects ==>
            RowFor(s.objects[captureId], id, identity, captureId).id != RowOfOperation(s, other).id)
  }

  lemma UnrivalledAlone(s: Stores, t: Stores, id: Id, identity: Identity, captureId: string)
    requires Unrivalled(s, id, identity, captureId) && t.objects == s.objects && OnlyRow(id, s.ops, t.ops)
    requires t.ops[id].identity == identity && t.ops[id].captureId == captureId
    ensures Alone(t, id)
  {
  }

  /** A checkpoint whose call is cut short by a crash anywhere, in the state `cut`, and
      then any number of recoveries, each cut short by a crash anywhere. Whatever was
      verifying at the cut ends in its turn. The checkpoint itself ends as the call that
      is not cut short, same phase and same checkpoint, unless that call would have
      succeeded and the checkpoints accepted before its turn leave it no place. */
  method InterruptedCheckpoint(s: Service, id: Id, digest: string, identity: Identity, captureId: string, restarts: nat)
    returns (ghost uninterrupted: Verdict, ghost cut: Stores, ghost order: seq<Id>, ghost turn: nat)
    requires s.Valid() && s.alive && s.crashOnly && id !in s.ops
    modifies s
    ensures s.Valid() && order == SortedKeys(cut.ops.Keys) && s.ops.Keys == cut.ops.Keys
    ensures uninterrupted == old(VerdictAt(s.Now(), id, identity, captureId))
    ensures s.crashOnly ==> SameEnds(cut, s.Now(), order)
    ensures s.crashOnly && Over(s.ops, id) ==> turn < |order| && order[turn] == id && id in cut.ops
    ensures s.crashOnly && Over(s.ops, id) ==>
      && Verdict(s.ops[id].phase, s.ops[id].checkpointId) == InTurn(cut, order, turn)
      && (InTurn(cut, order, turn) == uninterrupted <==> !Crowded(cut, order, turn))
    ensures s.crashOnly && Over(s.ops, id) && old(Unrivalled(s.Now(), id, identity, captureId)) ==> !Crowded(cut, order, turn)
  {
    hide CheckpointVerdict, Unrivalled, SameEnds, MayHold, VerdictAt, Crowded, InTurn;
    ghost var start := s.Now();
    uninterrupted := VerdictAt(start, id, identity, captureId);
    CutCheckpoint(s, id, digest, identity, captureId);
    cut := s.Now();
    order := SortedKeys(cut.ops.Keys);
    AscendingDistinct(order);
    turn := if id in cut.ops then PlaceOf(order, id, cut.ops.Keys) else 0;
    RecoverRepeatedly(s, restarts, cut, order);
    if s.crashOnly && Over(s.ops, id) {
      EndOfTurn(cut, s.Now(), order, turn);
      CutVerdict(start, cut, order, turn, identity, captureId, uninterrupted);
    }
  }

  /** The operation is decided. */
  predicate Over(rows: map<Id, Record>, id: Id) {
    id in rows && rows[id].phase !in {Pending, Verifying}
  }

  /** The row would succeed by itself, and the checkpoints before its turn leave it no place. */
  ghost predicate Crowded(s: Stores, order: seq<Id>, place: nat)
    requires place < |order| && order[place] in s.ops
  {
    && s.ops[order[place]].phase == Verifying && VerdictIn(s, order[place]).phase == Succeeded
    && !Acceptable(s.catalog, Rolled(s, order[..place]), RowOfOperation(s, order[place]))
  }

  /** The call that is cut, in the terms of its own row. */
  method CutCheckpoint(s: Service, id: Id, digest: string, identity: Identity, captureId: string)
    requires s.Valid() && s.alive && s.crashOnly && id !in s.ops
    modifies s
    ensures s.Valid() && s.Now().objects == old(s.objects)
    ensures id in s.ops ==> OnlyRow(id, old(s.ops), s.ops) && s.ops[id].identity == identity
    ensures s.crashOnly && id in s.ops && s.ops[id].phase != Pending ==>
      DecidedIn(s.Now(), false, id, old(VerdictAt(s.Now(), id, identity, captureId)), captureId)
    ensures s.crashOnly && Over(s.ops, id) ==> s.ops[id].phase in {Succeeded, Failed}
  {
    hide MayHold;
    VerdictIsOver(s.Now(), id, identity, captureId);
    hide CheckpointVerdict;
    var _ := s.Checkpoint(id, digest, identity, captureId);
  }

  lemma VerdictIsOver(s: Stores, id: Id, identity: Identity, captureId: string)
    ensures VerdictAt(s, id, identity, captureId).phase in {Succeeded, Failed}
  {
  }

  /** Any number of recoveries, each cut short anywhere. */
  method RecoverRepeatedly(s: Service, restarts: nat, ghost cut: Stores, ghost order: seq<Id>)
    requires s.Valid() && cut == s.Now() && order == SortedKeys(cut.ops.Keys)
    modifies s
    ensures s.Valid() && s.ops.Keys == cut.ops.Keys
    ensures s.crashOnly ==> old(s.crashOnly) && SameEnds(cut, s.Now(), order)
    ensures forall o | o in cut.ops && cut.ops[o].phase !in INTERRUPTED :: s.ops[o] == cut.ops[o]
  {
    UntouchedTurn(cut, order);
    hide SameEnds, RowSwept;
    for k := 0 to restarts
      invariant s.Valid() && s.Now().objects == cut.objects && s.Now().catalog == cut.catalog && s.ops.Keys == cut.ops.Keys
      invariant s.crashOnly ==> old(s.crashOnly) && SameEnds(cut, s.Now(), order)
      invariant forall o | o in cut.ops && cut.ops[o].phase !in INTERRUPTED :: s.ops[o] == cut.ops[o]
    {
      Restart(s, cut, order);
    }
  }

  function VerdictAt(s: Stores, id: Id, identity: Identity, captureId: string): Verdict {
    CheckpointVerdict(s.objects, s.catalog, s.checkpoints, id, identity, captureId)
  }

  ghost function PlaceOf(order: seq<Id>, id: Id, members: set<Id>): (place: nat)
    requires Lists(order, members) && id in members
    ensures place < |order| && order[place] == id
  {
    assert id in order;
    var place :| 0 <= place < |order| && order[place] == id;
    place
  }

  /** What an interrupted row has come to is its end in turn, once it is over. */
  lemma EndOfTurn(cut: Stores, t: Stores, order: seq<Id>, turn: nat)
    requires turn < |order| && order[turn] in cut.ops && Over(t.ops, order[turn])
    requires SameEnds(cut, t, order)
    requires cut.ops[order[turn]].phase !in INTERRUPTED ==> t.ops[order[turn]] == cut.ops[order[turn]]
    requires cut.ops[order[turn]].phase in {Verifying, Succeeded, Failed}
    ensures Verdict(t.ops[order[turn]].phase, t.ops[order[turn]].checkpointId) == InTurn(cut, order, turn)
  {
  }

  method Restart(s: Service, ghost cut: Stores, ghost order: seq<Id>)
    requires s.Valid() && order == SortedKeys(s.ops.Keys) && s.Now().catalog == cut.catalog && s.Now().objects == cut.objects
    requires s.ops.Keys == cut.ops.Keys && (s.crashOnly ==> SameEnds(cut, s.Now(), order))
    requires forall o | o in cut.ops && cut.ops[o].phase !in INTERRUPTED :: s.ops[o] == cut.ops[o]
    modifies s
    ensures s.Valid() && s.ops.Keys == cut.ops.Keys && s.Now().catalog == cut.catalog && s.Now().objects == cut.objects
    ensures s.crashOnly ==> old(s.crashOnly) && SameEnds(cut, s.Now(), order)
    ensures forall o | o in cut.ops && cut.ops[o].phase !in INTERRUPTED :: s.ops[o] == cut.ops[o]
  {
    hide SameEnds, EndsWell, RowSwept, MayHold, Hopeless, Lists, Ascending, Backed, Fits, OwnedThaw, Service.Valid;
    ghost var before := s.Now();
    s.alive := true;
    var _ := s.Recover();
    if s.crashOnly {
      EndsCarry(cut, before, s.Now(), order);
    }
  }

  lemma EndsCarry(s: Stores, t: Stores, u: Stores, order: seq<Id>)
    requires SameEnds(s, t, order) && SameEnds(t, u, order) && u.ops.Keys == t.ops.Keys
    requires forall o | o in t.ops && t.ops[o].phase !in INTERRUPTED :: u.ops[o] == t.ops[o]
    ensures SameEnds(s, u, order)
  {
    hide Rolled, CheckpointVerdict;
    forall p | 0 <= p < |order| && order[p] in s.ops && s.ops[order[p]].phase == Verifying
      ensures order[p] in u.ops && InTurn(u, order, p) == InTurn(s, order, p)
    {
      InTurnIsOver(s, order, p);
    }
  }

  lemma InTurnIsOver(s: Stores, order: seq<Id>, place: nat)
    requires place < |order| && order[place] in s.ops && s.ops[order[place]].phase == Verifying
    ensures InTurn(s, order, place).phase in {Succeeded, Failed}
  {
  }

  /** How the end of a cut checkpoint compares with its own verdict. */
  lemma CutVerdict(start: Stores, cut: Stores, order: seq<Id>, turn: nat, identity: Identity, captureId: string, verdict: Verdict)
    requires turn < |order| && Distinct(order) && order[turn] in cut.ops && cut.ops[order[turn]].phase != Pending
    requires DecidedIn(cut, false, order[turn], verdict, captureId) && cut.ops[order[turn]].identity == identity
    requires OnlyRow(order[turn], start.ops, cut.ops) && cut.objects == start.objects
    ensures InTurn(cut, order, turn) == verdict <==> !Crowded(cut, order, turn)
    ensures Unrivalled(start, order[turn], identity, captureId) ==> !Crowded(cut, order, turn)
  {
    hide Acceptable, Unrivalled, Alone, CheckpointVerdict;
    var id := order[turn];
    if cut.ops[id].phase == Verifying {
      TurnMatters(cut, order, turn);
      if Unrivalled(start, id, identity, captureId) {
        UnrivalledAlone(start, cut, id, identity, captureId);
        AloneInTurn(cut, order, turn);
      }
    }
  }

  /** From `before` to `after` only the row of `id` may differ, and never in what it
      is about. */
  predicate OnlyRow(id: Id, before: map<Id, Record>, after: map<Id, Record>) {
    && id in after && after == before[id := after[id]]
    && (id in before ==> after[id].identity == before[id].identity && after[id].kind == before[id].kind)
  }

  /** A row that was added, or one that was there. */
  lemma NewRow(id: Id, before: map<Id, Record>, after: map<Id, Record>)
    requires id in after
    requires after == before || (id !in before && after == before[id := after[id]])
    ensures OnlyRow(id, before, after)
  {
  }

  lemma RowChain(id: Id, a: map<Id, Record>, b: map<Id, Record>, c: map<Id, Record>)
    requires OnlyRow(id, a, b) && OnlyRow(id, b, c)
    ensures OnlyRow(id, a, c) && id in b && id in c && c[id].identity == b[id].identity && c[id].kind == b[id].kind
  {
  }

  function RowOf(capture: DurableCapture): CaptureRow {
    CaptureRow(capture.identity, capture.digest, capture.bytes, true)
  }
}
