/** The continuity-operation coordinator: the code that writes the rows and calls
    the helper, proved to make only the entries BoundaryProtocol allows.

    Every store write and every helper call may fail, lose its answer or be cut
    by a crash, before or after its effect; after a crash (`alive` false) the
    rest of the call does nothing. `smooth` stays true while every command works
    and every party agrees. */
module ContinuityCoordinator {
  import opened Options
  import opened BoundaryProtocol

  // ----- The helper request on the wire -------------------------------------

  /** A dynamically typed value: as the code builds it, or as JSON decoding does. */
  datatype Wire = Integer(n: int) | Record(text: string) | Text(s: string) | Number(n: int) | Object(text: string)

  function HelperRequest(operation: Operation, instance: string): map<string, Wire> {
    map["formatVersion" := Integer(1), "operationId" := Text(operation.id), "instance" := Text(instance),
        "sandboxId" := Text(operation.sandbox), "binding" := Record(operation.authority)]
  }

  /** What decoding a stored request yields: numbers and objects come back under
      JSON's own types. */
  function Decoded(value: Wire): Wire {
    match value
    case Integer(n) => Number(n)
    case Record(text) => Object(text)
    case _ => value
  }

  function StoredRequest(barrier: Barrier): map<string, Wire> {
    var built := HelperRequest(barrier.operation, barrier.instance);
    map key | key in built :: Decoded(built[key])
  }

  /** The comparison guarding authority-bound recovery never succeeds: a built
      request carries an integer where a decoded one carries a JSON number. */
  lemma NeverMatchesStored(operation: Operation, instance: string, barrier: Barrier)
    ensures HelperRequest(operation, instance) != StoredRequest(barrier)
  {
    assert HelperRequest(operation, instance)["formatVersion"] == Integer(1);
    assert StoredRequest(barrier)["formatVersion"] == Number(1);
  }

  // ----- The coordinator ------------------------------------------------------

  /** The workspace a lookup finds; two lookups agree when all its fields do. */
  datatype Workspace = Workspace(instance: string, fence: string)

  datatype Reply = Agreed | RefusedWith(code: string) | NoReply

  datatype Outcome = Ok | AlreadyRetired | ReplayConflict | AuthorityConflict | DuplicateOperation | Unavailable

  class Coordinator {
    var reports: map<Id, Report>
    var barriers: map<Id, Barrier>
    var tombstones: map<Id, Report>
    /** The helper's own memory, not the runtime's. */
    var held: set<Id>
    ghost var log: seq<Event>
    /** The registered workspaces by sandbox; not the coordinator's to write. */
    var registry: map<string, Workspace>
    var alive: bool
    var smooth: bool

    ghost predicate Valid()
      reads this`reports, this`barriers, this`tombstones, this`held, this`log
    {
      Lawful(log) && Replay(log) == Now()
    }

    function Now(): State
      reads this`reports, this`barriers, this`tombstones, this`held
    {
      State(reports, barriers, tombstones, held)
    }

    constructor ()
      ensures Valid() && log == [] && alive && smooth
    {
      reports, barriers, tombstones, held, log, alive, smooth := map[], map[], map[], {}, [], true, true;
      registry := map[];
    }

    /** A process that starts on what an earlier one left. */
    constructor Resumed(past: seq<Event>)
      requires Lawful(past)
      ensures Valid() && log == past && alive && smooth
    {
      var left := Replay(past);
      reports, barriers, tombstones, held := left.reports, left.barriers, left.tombstones, left.held;
      log, alive, smooth, registry := past, true, true, map[];
    }

    // ----- Effects, each of which may misbehave --------------------------------

    method Strike() returns (effect: bool, ok: bool)
      modifies this`alive, this`smooth
      ensures !old(alive) ==> !effect && !ok
      ensures ok ==> effect && alive
      ensures alive ==> old(alive)
      ensures smooth ==> old(smooth) && (old(alive) ==> ok)
    {
      var e: bool, a: bool, crash: bool := *, *, *;
      if !alive {
        return false, false;
      }
      alive := !crash;
      effect, ok := e, e && a && !crash;
      smooth := smooth && ok;
    }

    method Probe() returns (ok: bool)
      modifies this`alive, this`smooth
      ensures ok ==> alive
      ensures alive ==> old(alive)
      ensures smooth ==> old(smooth) && (old(alive) ==> ok)
    {
      var effect;
      effect, ok := Strike();
    }

    /** A workspace with an instance is registered for the sandbox. */
    predicate Usable(sandbox: string)
      reads this`registry
    {
      sandbox in registry && registry[sandbox].instance != ""
    }

    /** The registration may change at any time; `smooth` means that it does not. */
    method Resolve(sandbox: string) returns (workspace: Option<Workspace>)
      modifies this`registry, this`alive, this`smooth
      ensures workspace.Some? ==> alive && sandbox in registry && registry[sandbox] == workspace.value
      ensures alive ==> old(alive)
      ensures smooth ==> old(smooth) && registry == old(registry) && (old(alive) ==> alive)
      ensures smooth && old(alive) ==> workspace == if sandbox in registry then Some(registry[sandbox]) else None
    {
      var ok := Probe();
      var changes: bool := *;
      if changes {
        registry, smooth := *, false;
      }
      workspace := if ok && sandbox in registry then Some(registry[sandbox]) else None;
    }

    /** The entry `e` is made, or the call made no entry at all. */
    twostate predicate Made(e: Event)
      reads this
    {
      log == old(log) + [e]
    }

    // The durable writes. Each asks only for what its caller can see in the rows
    // and answers, and takes effect exactly when it adds its entry to the log.

    /** The intent is durable before the helper can acquire anything. */
    method PutIntent(operation: Operation, instance: string) returns (ok: bool)
      requires Valid() && !Now().Known(operation.id)
      modifies this`barriers, this`log, this`alive, this`smooth
      ensures Valid() && Concerns(old(log), log, operation.id)
      ensures ok ==> alive && operation.id in barriers
      ensures ok ==> Made(BarrierPut(operation.id, Barrier(operation, instance, false)))
      ensures alive ==> old(alive)
      ensures smooth ==> old(smooth) && (old(alive) ==> ok)
    {
      var e := BarrierPut(operation.id, Barrier(operation, instance, false));
      var effect;
      effect, ok := Strike();
      if effect {
        Extend(log, e);
        barriers, log := barriers[operation.id := e.barrier], log + [e];
      }
    }

    method PutApplying(operation: Operation) returns (ok: bool)
      requires Valid() && !Now().Known(operation.id) && operation.id in barriers
      modifies this`reports, this`log, this`alive, this`smooth
      ensures Valid() && Concerns(old(log), log, operation.id)
      ensures ok ==> alive && Applying(operation)
      ensures ok ==> Made(ReportPut(operation.id, Report(operation, Status.Applying)))
      ensures alive ==> old(alive)
      ensures smooth ==> old(smooth) && (old(alive) ==> ok)
    {
      var e := ReportPut(operation.id, Report(operation, Status.Applying));
      var effect;
      effect, ok := Strike();
      if effect {
        Extend(log, e);
        reports, log := reports[operation.id := e.report], log + [e];
      }
    }

    /** The row this operation's call is working under. */
    ghost predicate Applying(operation: Operation)
      reads this`reports
    {
      operation.id in reports && reports[operation.id] == Report(operation, Status.Applying)
    }

    method PutReceipt(operation: Operation, instance: string) returns (ok: bool)
      requires Valid() && Applying(operation) && operation.id in barriers
      requires log != [] && log[|log| - 1] == Answer(operation.id, Acknowledged)
      modifies this`barriers, this`log, this`alive, this`smooth
      ensures Valid() && Concerns(old(log), log, operation.id)
      ensures operation.id in barriers
      ensures ok ==> alive && Made(BarrierPut(operation.id, Barrier(operation, instance, true)))
      ensures alive ==> old(alive)
      ensures smooth ==> old(smooth) && (old(alive) ==> ok)
    {
      var e := BarrierPut(operation.id, Barrier(operation, instance, true));
      var effect;
      effect, ok := Strike();
      if effect {
        Extend(log, e);
        barriers, log := barriers[operation.id := e.barrier], log + [e];
      }
    }

    method DeleteBarrier(op: Id) returns (ok: bool)
      requires Valid() && Cleared(log, op)
      modifies this`barriers, this`log, this`alive, this`smooth
      ensures Valid() && Concerns(old(log), log, op) && NoAcquire(old(log), log) && Cleared(log, op)
      ensures barriers == old(barriers) || barriers == old(barriers) - {op}
      ensures ok ==> alive && op !in barriers && barriers == old(barriers) - {op} && Made(BarrierDeleted(op))
      ensures alive ==> old(alive)
      ensures smooth ==> old(smooth) && (old(alive) ==> ok)
    {
      var e := BarrierDeleted(op);
      var effect;
      effect, ok := Strike();
      if effect {
        Extend(log, e);
        barriers, log := barriers - {op}, log + [e];
      }
    }

    /** A failure before the helper was ever involved. */
    method FailEarly(operation: Operation, code: FailureCode) returns (outcome: Outcome)
      requires Valid() && !Now().Known(operation.id)
      requires code in {SourceUnavailable, RegistrationProvisionFailed, InvalidRequest}
      modifies this`reports, this`log, this`alive, this`smooth
      ensures Valid() && Concerns(old(log), log, operation.id)
      ensures outcome == Ok ==> alive && reports == old(reports)[operation.id := Report(operation, Failed(code))]
      ensures outcome in {Ok, Unavailable}
      ensures alive ==> old(alive)
      ensures smooth ==> old(smooth) && (old(alive) ==> outcome == Ok)
    {
      var e := ReportPut(operation.id, Report(operation, Failed(code)));
      var effect, ok := Strike();
      if effect {
        Extend(log, e);
        reports, log := reports[operation.id := e.report], log + [e];
      }
      outcome := if ok then Ok else Unavailable;
    }

    /** The evidence a terminal report rests on. */
    ghost predicate Earned(op: Id, status: Status)
      reads this`barriers, this`log
    {
      match status
      case Applying => false
      case OutcomeUnknown(why) => Unsettled(log, op, why)
      case Failed(code) =>
        && code !in {SourceUnavailable, RegistrationProvisionFailed, InvalidRequest} && Cleared(log, op)
        && Answer(op, if code.HelperRefusal? then Refused else Released) in log
        && (code == CheckpointFailed ==> op !in barriers && CaptureSucceeded(op) in log)
      case Accepted =>
        Cleared(log, op) && op !in barriers && CaptureSucceeded(op) in log && CheckpointSucceeded(op) in log
    }

    method WriteTerminal(operation: Operation, status: Status) returns (outcome: Outcome)
      requires Valid() && Applying(operation) && (alive ==> Earned(operation.id, status))
      modifies this`reports, this`log, this`alive, this`smooth
      ensures Valid() && Concerns(old(log), log, operation.id) && NoAcquire(old(log), log)
      ensures reports == old(reports) || reports == old(reports)[operation.id := Report(operation, status)]
      ensures outcome == Ok ==> alive && Made(ReportPut(operation.id, Report(operation, status)))
      ensures outcome == Ok ==> reports == old(reports)[operation.id := Report(operation, status)]
      ensures outcome in {Ok, Unavailable}
      ensures alive ==> old(alive)
      ensures smooth ==> old(smooth) && (old(alive) ==> outcome == Ok)
    {
      var e := ReportPut(operation.id, Report(operation, status));
      var effect, ok := Strike();
      if effect {
        AlwaysSound(log, operation.id);
        Extend(log, e);
        reports, log := reports[operation.id := e.report], log + [e];
      }
      outcome := if ok then Ok else Unavailable;
    }

    // The helper calls. Each adds what was sent, with its true effect, and then the
    // answer if one arrives.

    method Sent(e: Event)
      requires Valid() && (e.AcquireSent? || e.ReleaseSent?)
      requires e.AcquireSent? ==> log != [] && log[|log| - 1].ReportPut? && log[|log| - 1].op == e.op &&
                                  log[|log| - 1].report.status == Status.Applying
      requires e.ReleaseSent? ==> e.op in barriers
      modifies this`held, this`log
      ensures Valid() && Concerns(old(log), log, e.op) && Made(e)
      ensures e.ReleaseSent? ==> NoAcquire(old(log), log)
      ensures held == if !e.took then old(held) else if e.AcquireSent? then old(held) + {e.op} else old(held) - {e.op}
    {
      Extend(log, e);
      held, log := Apply(Now(), e).held, log + [e];
    }

    /** The helper answers truthfully. */
    method Heard(op: Id, fact: Fact)
      requires Valid() && (fact == Acknowledged <==> op in held)
      modifies this`log
      ensures Valid() && Concerns(old(log), log, op) && NoAcquire(old(log), log) && Made(Answer(op, fact))
      ensures fact != Acknowledged ==> Cleared(log, op)
    {
      Extend(log, Answer(op, fact));
      log := log + [Answer(op, fact)];
    }

    /** The local engine's result, under the boundary. */
    method Succeeded(e: Event)
      requires Valid() && (e.CaptureSucceeded? || e.CheckpointSucceeded?) && e.op in barriers
      requires if e.CaptureSucceeded? then e.op in held else CaptureSucceeded(e.op) in log
      modifies this`log
      ensures Valid() && Concerns(old(log), log, e.op) && Made(e)
      ensures e in log && forall e' :: e' in old(log) ==> e' in log
    {
      Extend(log, e);
      log := log + [e];
    }

    method Acquire(operation: Operation) returns (reply: Reply)
      requires Valid() && Applying(operation) && operation.id in barriers
      requires log != [] && log[|log| - 1] == ReportPut(operation.id, Report(operation, Status.Applying))
      modifies this`held, this`log, this`alive, this`smooth
      ensures Valid() && Concerns(old(log), log, operation.id)
      ensures !reply.NoReply? ==> alive
      ensures reply.Agreed? ==> operation.id in held
      ensures reply.Agreed? ==> log == old(log) + [AcquireSent(operation.id, true)] + [Answer(operation.id, Acknowledged)]
      ensures reply.RefusedWith? ==> Cleared(log, operation.id) && Answer(operation.id, Refused) in log
      ensures reply.NoReply? && alive ==> Unsettled(log, operation.id, BoundaryOutcomeUnknown)
      ensures alive ==> old(alive)
      ensures smooth ==> old(smooth) && (old(alive) ==> reply.Agreed?)
    {
      var op := operation.id;
      var took: bool, heard: bool, crash: bool, code: string := *, *, *, *;
      if !alive {
        return NoReply;
      }
      NotHeldBefore(log, op);
      hide Valid, Replay, Allowed, Lawful, Cleared, Concerns;
      ghost var start := log;
      Sent(AcquireSent(op, took));
      ghost var sent := log;
      alive := !crash;
      smooth := smooth && took && heard && !crash;
      if crash || !heard {
        return NoReply;
      }
      Heard(op, if took then Acknowledged else Refused);
      ConcernsChain(start, sent, log, op);
      reply := if took then Agreed else RefusedWith(code);
    }

    method Release(op: Id) returns (reply: Reply)
      requires Valid() && op in barriers
      modifies this`held, this`log, this`alive, this`smooth
      ensures Valid() && Concerns(old(log), log, op) && NoAcquire(old(log), log)
      ensures reply.Agreed? ==> alive && Cleared(log, op) && op !in held
      ensures reply.Agreed? ==> log == old(log) + [ReleaseSent(op, true)] + [Answer(op, Released)] && Answer(op, Released) in log
      ensures !reply.Agreed? && alive ==> Unsettled(log, op, BoundaryReleaseUnknown)
      ensures held == old(held) || held == old(held) - {op}
      ensures alive ==> old(alive)
      ensures smooth ==> old(smooth) && (old(alive) ==> reply.Agreed?)
    {
      var took: bool, heard: bool, crash: bool, code: string := *, *, *, *;
      if !alive {
        return NoReply;
      }
      hide Valid, Replay, Allowed, Lawful, Cleared, Concerns, NoAcquire;
      ghost var start := log;
      Sent(ReleaseSent(op, took));
      ghost var sent := log;
      alive := !crash;
      smooth := smooth && took && heard && !crash;
      if crash || !heard {
        return NoReply;
      }
      if !took {
        return RefusedWith(code);
      }
      Heard(op, Released);
      ConcernsChain(start, sent, log, op);
      reply := Agreed;
    }

    /** Asks the helper what it holds. It may also refuse for a reason of its own. */
    method Reconcile(op: Id) returns (reply: Reply)
      requires Valid()
      modifies this`log, this`held, this`alive, this`smooth
      ensures Valid() && Concerns(old(log), log, op) && NoAcquire(old(log), log) && held == old(held)
      ensures !reply.NoReply? ==> alive
      ensures reply.Agreed? ==> op in held
      ensures reply == RefusedWith(BOUNDARY_MISSING) ==> op !in held && Cleared(log, op)
      ensures alive ==> old(alive)
      ensures smooth ==> old(smooth) && (old(alive) ==> alive)
      ensures smooth && old(alive) ==> reply == if op in held then Agreed else RefusedWith(BOUNDARY_MISSING)
    {
      var heard: bool, crash: bool, other: bool, code: string := *, *, *, *;
      if !alive {
        return NoReply;
      }
      alive := !crash;
      smooth := smooth && heard && !crash && !other;
      if crash || !heard {
        return NoReply;
      }
      if other {
        return if code != BOUNDARY_MISSING then RefusedWith(code) else NoReply;
      }
      var holds := op in held;
      Heard(op, if holds then Acknowledged else Missing);
      reply := if holds then Agreed else RefusedWith(BOUNDARY_MISSING);
    }

    // ----- One operation --------------------------------------------------------

    /** The entries of a call in which everything works. */
    ghost function Acquired(start: seq<Event>, operation: Operation, instance: string): seq<Event> {
      var op := operation.id;
      start + [BarrierPut(op, Barrier(operation, instance, false))]
            + [ReportPut(op, Report(operation, Status.Applying))]
            + [AcquireSent(op, true)] + [Answer(op, Acknowledged)]
            + [BarrierPut(op, Barrier(operation, instance, true))]
    }

    ghost function SmoothRun(start: seq<Event>, operation: Operation, instance: string): seq<Event> {
      var op := operation.id;
      Acquired(start, operation, instance)
            + [CaptureSucceeded(op)] + [CheckpointSucceeded(op)]
            + [ReleaseSent(op, true)] + [Answer(op, Released)]
            + [BarrierDeleted(op)]
            + [ReportPut(op, Report(operation, Accepted))]
    }

    lemma SmoothSteps(start: seq<Event>, operation: Operation, instance: string)
      ensures var op, barrier := operation.id, Barrier(operation, instance, false);
        SmoothRun(start, operation, instance) ==
        start + [BarrierPut(op, barrier), ReportPut(op, Report(operation, Status.Applying)),
                 AcquireSent(op, true), Answer(op, Acknowledged), BarrierPut(op, barrier.(receipt := true)),
                 CaptureSucceeded(op), CheckpointSucceeded(op), ReleaseSent(op, true), Answer(op, Released),
                 BarrierDeleted(op), ReportPut(op, Report(operation, Accepted))]
    {
    }

    /** A call that returns without error leaves this operation's terminal report. */
    ghost predicate Concluded(operation: Operation)
      reads this`reports
    {
      && operation.id in reports && reports[operation.id].operation == operation
      && reports[operation.id].status.Terminal()
    }

    method ApplyOperation(operation: Operation) returns (outcome: Outcome, ghost instance: string)
      requires Valid()
      modifies this`reports, this`barriers, this`held, this`log, this`registry, this`alive, this`smooth
      ensures Valid() && Concerns(old(log), log, operation.id)
      // An operation that was ever started is never started again.
      ensures old(Now().Known(operation.id)) ==> Now() == old(Now()) && log == old(log)
      ensures operation.id in old(tombstones) ==> outcome in {AlreadyRetired, Unavailable}
      ensures operation.id !in old(tombstones) && operation.id in old(reports) ==>
                outcome == Unavailable || outcome == if old(reports)[operation.id].operation == operation then Ok else ReplayConflict
      // A new one that returns without error has its terminal report.
      ensures !old(Now().Known(operation.id)) ==> outcome in {Ok, Unavailable}
      ensures !old(Now().Known(operation.id)) && outcome == Ok ==> Concluded(operation)
      // Accepted is only a capture of the instance that the boundary is for, registered still.
      ensures !old(Now().Known(operation.id)) && outcome == Ok && reports[operation.id].status.Accepted? ==>
                operation.sandbox in registry && registry[operation.sandbox].instance == instance != ""
      // When everything works it runs exactly once through every step, in this order.
      ensures smooth && old(alive) && !old(Now().Known(operation.id))
              && operation.sandbox in old(registry) && old(registry)[operation.sandbox].instance != "" ==>
        var op, barrier := operation.id, Barrier(operation, old(registry)[operation.sandbox].instance, false);
        && outcome == Ok && instance == old(registry)[operation.sandbox].instance
        && log == old(log) + [BarrierPut(op, barrier), ReportPut(op, Report(operation, Status.Applying)),
                              AcquireSent(op, true), Answer(op, Acknowledged), BarrierPut(op, barrier.(receipt := true)),
                              CaptureSucceeded(op), CheckpointSucceeded(op), ReleaseSent(op, true), Answer(op, Released),
                              BarrierDeleted(op), ReportPut(op, Report(operation, Accepted))]
      // Without a usable workspace nothing but the failure is recorded.
      ensures smooth && old(alive) && !old(Now().Known(operation.id))
              && (operation.sandbox in old(registry) ==> old(registry)[operation.sandbox].instance == "") ==>
                outcome == Ok && Now() == old(Now()).(reports := old(reports)[operation.id := Report(operation,
                  Failed(if operation.sandbox in old(registry) then InvalidRequest else SourceUnavailable))])
      ensures alive ==> old(alive)
      ensures smooth ==> old(smooth)
    {
      hide Valid, Replay, Allowed, Lawful, Cleared, SmoothRun;
      instance := "";
      ghost var start := log;
      var read := Probe();
      if !read {
        return Unavailable, instance;
      }
      if operation.id in tombstones {
        return AlreadyRetired, instance;
      }
      read := Probe();
      if !read {
        return Unavailable, instance;
      }
      if operation.id in reports {
        return if reports[operation.id].operation == operation then Ok else ReplayConflict, instance;
      }
      var workspace := Resolve(operation.sandbox);
      if workspace.None? {
        outcome := FailEarly(operation, SourceUnavailable);
        return;
      }
      var provisioned := Probe();
      if !provisioned {
        outcome := FailEarly(operation, RegistrationProvisionFailed);
        return;
      }
      if workspace.value.instance == "" {
        outcome := FailEarly(operation, InvalidRequest);
        return;
      }
      instance := workspace.value.instance;
      outcome := AcquireAndCapture(operation, workspace.value);
      SmoothSteps(start, operation, instance);
    }

    /** From the durable intent to the terminal report. */
    method AcquireAndCapture(operation: Operation, workspace: Workspace) returns (outcome: Outcome)
      requires Valid() && !Now().Known(operation.id)
      requires smooth ==> operation.sandbox in registry && registry[operation.sandbox] == workspace
      modifies this`reports, this`barriers, this`held, this`log, this`registry, this`alive, this`smooth
      ensures Valid() && Concerns(old(log), log, operation.id)
      ensures outcome == Ok ==> Concluded(operation)
      ensures outcome == Ok && reports[operation.id].status.Accepted? ==>
                operation.sandbox in registry && registry[operation.sandbox] == workspace
      ensures smooth && old(alive) ==> outcome == Ok && log == SmoothRun(old(log), operation, workspace.instance)
      ensures alive ==> old(alive)
      ensures smooth ==> old(smooth)
      ensures outcome in {Ok, Unavailable}
    {
      hide Valid, Replay, Allowed, Lawful, Cleared, SmoothRun;
      hide Concerns;
      var op := operation.id;
      ghost var start := log;
      var put := PutIntent(operation, workspace.instance);
      if !put {
        return Unavailable;
      }
      ghost var intent := log;
      put := PutApplying(operation);
      ConcernsChain(start, intent, log, op);
      if !put {
        return Unavailable;
      }
      ghost var applying := log;
      var reply := Acquire(operation);
      ConcernsChain(start, applying, log, op);
      ghost var answered := log;
      if !reply.Agreed? {
        outcome := NotAcquired(operation, reply);
        ConcernsChain(start, answered, log, op);
        return;
      }
      put := PutReceipt(operation, workspace.instance);
      ConcernsChain(start, answered, log, op);
      if !put {
        return Unavailable;
      }
      ghost var receipt := log;
      outcome := CaptureUnderBoundary(operation, workspace, start);
      ConcernsChain(start, receipt, log, op);
    }

    /** A refusal deletes the intent before it is reported; no answer at all leaves
        it for recovery. */
    method NotAcquired(operation: Operation, reply: Reply) returns (outcome: Outcome)
      requires Valid() && Applying(operation) && !reply.Agreed?
      requires reply.RefusedWith? ==> Cleared(log, operation.id) && Answer(operation.id, Refused) in log
      requires reply.NoReply? && alive ==> Unsettled(log, operation.id, BoundaryOutcomeUnknown)
      modifies this`reports, this`barriers, this`held, this`log, this`alive, this`smooth
      ensures Valid() && Concerns(old(log), log, operation.id)
      ensures outcome == Ok ==> Concluded(operation)
      ensures outcome == Ok && reply.RefusedWith? ==>
                reports[operation.id].status == Failed(HelperRefusal(reply.code)) && operation.id !in barriers
      ensures outcome == Ok && reply.NoReply? ==> reports[operation.id].status == OutcomeUnknown(BoundaryOutcomeUnknown)
      ensures reply.NoReply? ==> barriers == old(barriers)
      ensures alive ==> old(alive)
      ensures smooth ==> old(smooth)
      ensures outcome in {Ok, Unavailable}
    {
      hide Valid, Replay, Allowed, Lawful, Cleared, Unsettled;
      if reply.NoReply? {
        outcome := WriteTerminal(operation, OutcomeUnknown(BoundaryOutcomeUnknown));
        return;
      }
      var deleted := DeleteBarrier(operation.id);
      if !deleted {
        return Unavailable;
      }
      StillThere(old(log), log, Answer(operation.id, Refused));
      outcome := WriteTerminal(operation, Failed(HelperRefusal(reply.code)));
    }

    /** The boundary is held and its receipt is durable. */
    method CaptureUnderBoundary(operation: Operation, workspace: Workspace, ghost start: seq<Event>) returns (outcome: Outcome)
      requires Valid() && Applying(operation) && operation.id in barriers && operation.id in held
      requires log == Acquired(start, operation, workspace.instance)
      requires smooth ==> operation.sandbox in registry && registry[operation.sandbox] == workspace
      modifies this`reports, this`barriers, this`held, this`log, this`registry, this`alive, this`smooth
      ensures Valid() && Concerns(old(log), log, operation.id)
      ensures outcome == Ok ==> Concluded(operation)
      ensures outcome == Ok && reports[operation.id].status.OutcomeUnknown? ==> reports[operation.id].status.why.BoundaryReleaseUnknown?
      ensures outcome == Ok && reports[operation.id].status.Failed? ==>
                reports[operation.id].status.code in {TargetChanged, CaptureFailed, CheckpointFailed}
      // Nothing is captured, or said to have failed, of a workspace that is not the one the boundary is for.
      ensures outcome == Ok && reports[operation.id].status in {Accepted, Failed(CheckpointFailed), Failed(CaptureFailed)} ==>
                operation.sandbox in registry && registry[operation.sandbox] == workspace
      ensures smooth && old(alive) ==> outcome == Ok && log == SmoothRun(start, operation, workspace.instance)
      ensures alive ==> old(alive)
      ensures smooth ==> old(smooth)
      ensures outcome in {Ok, Unavailable}
    {
      hide Valid, Replay, Allowed, Lawful, Cleared, Acquired, Unsettled;
      var op := operation.id;
      var current := Resolve(operation.sandbox);
      if current != Some(workspace) {
        outcome := Abandon(operation, TargetChanged, true);
        return;
      }
      var captured := Probe();
      if !captured {
        outcome := Abandon(operation, CaptureFailed, false);
        return;
      }
      Succeeded(CaptureSucceeded(op));
      var checkpointed := Probe();
      if checkpointed {
        Succeeded(CheckpointSucceeded(op));
      }
      outcome := Conclude(operation, checkpointed);
    }

    /** The boundary is given back whether or not the checkpoint succeeded. */
    method Conclude(operation: Operation, checkpointed: bool) returns (outcome: Outcome)
      requires Valid() && Applying(operation) && operation.id in barriers
      requires CaptureSucceeded(operation.id) in log && (checkpointed ==> CheckpointSucceeded(operation.id) in log)
      modifies this`reports, this`barriers, this`held, this`log, this`alive, this`smooth
      ensures Valid() && Concerns(old(log), log, operation.id)
      ensures outcome == Ok ==> Concluded(operation)
      ensures outcome == Ok && !reports[operation.id].status.OutcomeUnknown? ==>
                reports[operation.id].status == if checkpointed then Accepted else Failed(CheckpointFailed)
      ensures outcome == Ok && reports[operation.id].status.OutcomeUnknown? ==> reports[operation.id].status.why.BoundaryReleaseUnknown?
      ensures smooth && old(alive) && checkpointed ==>
                outcome == Ok &&
                log == old(log) + [ReleaseSent(operation.id, true)] + [Answer(operation.id, Released)]
                                + [BarrierDeleted(operation.id)] + [ReportPut(operation.id, Report(operation, Accepted))]
      ensures alive ==> old(alive)
      ensures smooth ==> old(smooth)
      ensures outcome in {Ok, Unavailable}
    {
      hide Valid, Replay, Allowed, Lawful, Cleared, Unsettled;
      var released := Release(operation.id);
      if !released.Agreed? {
        outcome := WriteTerminal(operation, OutcomeUnknown(BoundaryReleaseUnknown));
        return;
      }
      ghost var answered := log;
      var deleted := DeleteBarrier(operation.id);
      if !deleted {
        return Unavailable;
      }
      StillThere(answered, log, Answer(operation.id, Released));
      StillThere(old(log), log, CaptureSucceeded(operation.id));
      if checkpointed {
        StillThere(old(log), log, CheckpointSucceeded(operation.id));
      }
      outcome := WriteTerminal(operation, if checkpointed then Accepted else Failed(CheckpointFailed));
    }

    /** Gives the boundary back without a result. Only a changed target insists on
        the row being deleted before the failure is reported. */
    method Abandon(operation: Operation, code: FailureCode, insist: bool) returns (outcome: Outcome)
      requires Valid() && Applying(operation) && operation.id in barriers && code in {TargetChanged, CaptureFailed}
      modifies this`reports, this`barriers, this`held, this`log, this`alive, this`smooth
      ensures Valid() && Concerns(old(log), log, operation.id)
      ensures outcome == Ok ==> Concluded(operation)
      ensures outcome == Ok && !reports[operation.id].status.OutcomeUnknown? ==> reports[operation.id].status == Failed(code)
      ensures outcome == Ok && reports[operation.id].status.OutcomeUnknown? ==> reports[operation.id].status.why.BoundaryReleaseUnknown?
      ensures outcome == Ok && reports[operation.id].status.Failed? ==>
                operation.id !in held && (insist ==> operation.id !in barriers)
      ensures alive ==> old(alive)
      ensures smooth ==> old(smooth)
      ensures outcome in {Ok, Unavailable}
    {
      hide Valid, Replay, Allowed, Lawful, Cleared, Unsettled;
      var released := Release(operation.id);
      if !released.Agreed? {
        outcome := WriteTerminal(operation, OutcomeUnknown(BoundaryReleaseUnknown));
        return;
      }
      ghost var answered := log;
      var deleted := DeleteBarrier(operation.id);
      StillThere(answered, log, Answer(operation.id, Released));
      if insist && !deleted {
        return Unavailable;
      }
      outcome := WriteTerminal(operation, Failed(code));
    }

    // ----- Recovery ---------------------------------------------------------------

    /** One stored barrier, reconciled: a missing boundary loses its row and nothing
        else; a held one is released first, and an operation still applying becomes
        outcome_unknown. `snapshot` are the reports read when recovery began. */
    method RecoverBarrier(op: Id, snapshot: map<Id, Report>) returns (ok: bool)
      requires Valid() && op in barriers
      requires (op in snapshot <==> op in reports) && (op in snapshot ==> snapshot[op] == reports[op])
      modifies this`reports, this`barriers, this`held, this`log, this`alive, this`smooth
      ensures Valid() && Concerns(old(log), log, op) && NoAcquire(old(log), log)
      ensures tombstones == old(tombstones)
      ensures reports.Keys == old(reports).Keys
      ensures forall o | o in reports && o != op :: reports[o] == old(reports)[o]
      ensures barriers == old(barriers) || barriers == old(barriers) - {op}
      ensures held == old(held) || held == old(held) - {op}
      ensures ok ==> barriers == old(barriers) - {op} && held == old(held) - {op}
      ensures ok && op in reports ==> reports[op] == AfterRecovery(old(reports)[op], op in old(held))
      ensures alive ==> old(alive)
      ensures smooth ==> old(smooth) && (old(alive) ==> ok && alive)
    {
      hide Valid, Replay, Allowed, Lawful, Cleared, Concerns, NoAcquire;
      ghost var start := log;
      var reply := Reconcile(op);
      ghost var answered := log;
      if reply == RefusedWith(BOUNDARY_MISSING) {
        ok := DeleteBarrier(op);
        ConcernsChain(start, answered, log, op);
        return;
      }
      if !reply.Agreed? {
        return false;
      }
      reply := Release(op);
      ConcernsChain(start, answered, log, op);
      if !reply.Agreed? {
        return false;
      }
      ghost var released := log;
      ok := DeleteBarrier(op);
      ConcernsChain(start, released, log, op);
      if !ok {
        return;
      }
      if op in snapshot && snapshot[op].status.Applying? {
        ghost var deleted := log;
        ValidNames(op);
        StillThere(released, log, Answer(op, Released));
        var outcome := WriteTerminal(snapshot[op].operation, OutcomeUnknown(RecoveredWithoutResult));
        ConcernsChain(start, deleted, log, op);
        ok := outcome == Ok;
      }
    }

    lemma ValidNames(op: Id)
      requires Valid() && op in reports
      ensures reports[op].operation.id == op
    {
      AlwaysSound(log, op);
    }

    /** Recovery of everything the rows name. */
    method Recover() returns (ok: bool)
      requires Valid()
      modifies this`reports, this`barriers, this`held, this`log, this`alive, this`smooth
      ensures Valid() && NoAcquire(old(log), log)
      ensures tombstones == old(tombstones) && reports.Keys == old(reports).Keys
      // Rows without a barrier are left exactly as they are.
      ensures forall o | o in reports && o !in old(barriers) :: reports[o] == old(reports)[o]
      ensures barriers.Keys <= old(barriers).Keys
      // A recovery that succeeds leaves no barrier and no boundary.
      ensures ok ==> barriers == map[] && held == {}
      ensures ok ==> forall o | o in reports && o in old(barriers) ::
                reports[o] == if o in old(held) && old(reports)[o].status == Status.Applying
                              then Report(old(reports)[o].operation, OutcomeUnknown(RecoveredWithoutResult)) else old(reports)[o]
      // Exactly the operations reported as applying whose boundary was not held are stranded.
      ensures ok ==> forall o :: Stranded(Now(), o) <==> old(Now().Has(o, Status.Applying)) && o !in old(held)
      ensures alive ==> old(alive)
      ensures smooth ==> old(smooth) && (old(alive) ==> ok)
    {
      hide Valid, Replay, Allowed, Lawful, Cleared, Concerns;
      HeldHaveRows(this);
      ok := Probe();
      if !ok {
        return;
      }
      var snapshot := reports;
      var pending := barriers.Keys;
      while pending != {}
        invariant Valid() && NoAcquire(old(log), log)
        invariant tombstones == old(tombstones) && reports.Keys == old(reports).Keys
        invariant pending == barriers.Keys <= old(barriers).Keys
        invariant held == old(held) - (old(barriers).Keys - pending)
        invariant forall o | o in reports && (o in pending || o !in old(barriers)) :: reports[o] == old(reports)[o]
        invariant forall o | o in reports && o in old(barriers) && o !in pending ::
                    reports[o] == AfterRecovery(old(reports)[o], o in old(held))
        invariant alive ==> old(alive)
        invariant smooth ==> old(smooth) && (old(alive) ==> alive)
        decreases pending
      {
        var op :| op in pending;
        ok := RecoverBarrier(op, snapshot);
        if !ok {
          return;
        }
        pending := pending - {op};
      }
      HeldHaveRows(this);
      return true;
    }

    /** Recovery of the operations the current manifest names, for any comparison of
        the built request with the stored one. Rows that are not named stay as they
        are. With the code's own comparison, equality, it never gets past it: it
        changes nothing and succeeds only when the manifest names no stored barrier. */
    method RecoverCurrent(manifest: seq<Operation>, same: (map<string, Wire>, map<string, Wire>) -> bool)
      returns (outcome: Outcome)
      requires Valid()
      modifies this`reports, this`barriers, this`held, this`log, this`registry, this`alive, this`smooth
      ensures Valid() && NoAcquire(old(log), log)
      ensures tombstones == old(tombstones) && reports.Keys == old(reports).Keys
      ensures forall o | o in reports && (!Named(manifest, o) || o !in old(barriers)) :: reports[o] == old(reports)[o]
      ensures barriers.Keys <= old(barriers).Keys
      ensures forall o | o in old(barriers) && !Named(manifest, o) :: o in barriers && barriers[o] == old(barriers)[o]
      ensures forall o | !Named(manifest, o) :: o in held <==> o in old(held)
      ensures outcome == Ok ==> forall o | Named(manifest, o) :: o !in barriers && o !in held
      // Named barriers end as a recovery of everything would end them.
      ensures outcome == Ok ==> forall o | o in reports && o in old(barriers) && Named(manifest, o) ::
                reports[o] == AfterRecovery(old(reports)[o], o in old(held))
      ensures Equality(same) ==> Now() == old(Now())
      ensures Equality(same) && outcome == Ok ==> forall i :: 0 <= i < |manifest| ==> manifest[i].id !in barriers
      ensures Equality(same) && smooth && old(alive) ==>
                outcome == if !Distinct(manifest) then DuplicateOperation
                           else if exists i :: 0 <= i < |manifest| && manifest[i].id in barriers
                           then if outcome == Unavailable then Unavailable else AuthorityConflict
                           else Ok
      // Unavailable only for want of a workspace of some operation it names.
      ensures Equality(same) && smooth && old(alive) && outcome == Unavailable ==>
                exists operation :: operation in manifest && !old(Usable(operation.sandbox))
      ensures alive ==> old(alive)
      ensures smooth ==> old(smooth)
    {
      hide Valid, Replay, Allowed, Lawful, Cleared, Concerns, NoAcquire, Equality;
      NoneSent(log);
      var current := Index(manifest);
      if current.None? {
        return DuplicateOperation;
      }
      var readable := Probe();
      if !readable {
        return Unavailable;
      }
      outcome := RecoverNamed(current.value, same);
      HeldHaveRows(this);
    }

    /** The manifest's operations by identifier, if no two share one. */
    method Index(manifest: seq<Operation>) returns (current: Option<map<Id, Operation>>)
      ensures current.Some? <==> Distinct(manifest)
      ensures current.Some? ==> forall o :: o in current.value <==> Named(manifest, o)
      ensures current.Some? ==> forall o | o in current.value :: current.value[o] in manifest
    {
      var named: map<Id, Operation> := map[];
      for i := 0 to |manifest|
        invariant named.Keys == set k | 0 <= k < i :: manifest[k].id
        invariant forall o | o in named :: named[o] in manifest
        invariant Distinct(manifest[..i])
      {
        if manifest[i].id in named {
          DuplicateFound(manifest, i);
          return None;
        }
        DistinctSnoc(manifest, i);
        named := named[manifest[i].id := manifest[i]];
      }
      assert manifest[..|manifest|] == manifest;
      return Some(named);
    }

    /** The stored barriers in turn: those not named are passed over. */
    method RecoverNamed(current: map<Id, Operation>, same: (map<string, Wire>, map<string, Wire>) -> bool)
      returns (outcome: Outcome)
      requires Valid()
      modifies this`reports, this`barriers, this`held, this`log, this`registry, this`alive, this`smooth
      ensures Valid() && NoAcquire(old(log), log)
      ensures tombstones == old(tombstones) && reports.Keys == old(reports).Keys
      ensures forall o | o in reports && (o !in current || o !in old(barriers)) :: reports[o] == old(reports)[o]
      ensures barriers.Keys <= old(barriers).Keys
      ensures forall o | o in old(barriers) && o !in current :: o in barriers && barriers[o] == old(barriers)[o]
      ensures forall o | o !in current :: o in held <==> o in old(held)
      ensures outcome == Ok ==> barriers.Keys !! current.Keys
      ensures outcome == Ok ==> forall o | o in reports && o in old(barriers) && o in current ::
                reports[o] == AfterRecovery(old(reports)[o], o in old(held))
      ensures Equality(same) ==> Now() == old(Now())
      ensures Equality(same) && smooth && old(alive) ==>
                if barriers.Keys !! current.Keys then outcome == Ok else outcome in {AuthorityConflict, Unavailable}
      ensures Equality(same) && smooth && old(alive) && outcome == Unavailable ==>
                exists o :: o in current && !old(Usable(current[o].sandbox))
      ensures alive ==> old(alive)
      ensures smooth ==> old(smooth)
    {
      hide Valid, Replay, Allowed, Lawful, Cleared, Concerns, NoAcquire, HelperRequest, StoredRequest, Equality;
      NoneSent(log);
      var snapshot := reports;
      var pending := barriers.Keys;
      while pending != {}
        invariant Valid() && NoAcquire(old(log), log)
        invariant tombstones == old(tombstones) && reports.Keys == old(reports).Keys
        invariant pending <= barriers.Keys && forall o | o in barriers && o in current :: o in pending
        invariant barriers.Keys <= old(barriers).Keys
        invariant forall o | o in reports && (o in pending || o !in current || o !in old(barriers)) :: reports[o] == snapshot[o]
        invariant forall o | o in old(barriers) && o !in current :: o in barriers && barriers[o] == old(barriers)[o]
        invariant forall o | o in pending || o !in current :: o in held <==> o in old(held)
        invariant forall o | o in reports && o in old(barriers) && o in current && o !in pending ::
                    reports[o] == AfterRecovery(old(reports)[o], o in old(held))
        invariant Equality(same) ==> Now() == old(Now())
        invariant alive ==> old(alive)
        invariant smooth ==> old(smooth) && (old(alive) ==> alive) && registry == old(registry)
        decreases pending
      {
        var op :| op in pending;
        if op !in current {
          pending := pending - {op};
          continue;
        }
        ghost var before := log;
        outcome := RecoverNamedBarrier(op, current[op], same, snapshot);
        NoAcquireChain(old(log), before, log);
        if outcome != Ok {
          return;
        }
        pending := pending - {op};
      }
      return Ok;
    }

    /** One stored barrier that is named: compared, and recovered if the comparison succeeds. */
    method RecoverNamedBarrier(op: Id, intent: Operation, same: (map<string, Wire>, map<string, Wire>) -> bool,
                               snapshot: map<Id, Report>) returns (outcome: Outcome)
      requires Valid() && op in barriers
      requires (op in snapshot <==> op in reports) && (op in snapshot ==> snapshot[op] == reports[op])
      modifies this`reports, this`barriers, this`held, this`log, this`registry, this`alive, this`smooth
      ensures Valid() && NoAcquire(old(log), log)
      ensures tombstones == old(tombstones) && reports.Keys == old(reports).Keys
      ensures forall o | o in reports && o != op :: reports[o] == old(reports)[o]
      ensures barriers == old(barriers) || barriers == old(barriers) - {op}
      ensures held == old(held) || held == old(held) - {op}
      ensures outcome == Ok ==> barriers == old(barriers) - {op} && !Equality(same)
      ensures outcome == Ok && op in reports ==> reports[op] == AfterRecovery(old(reports)[op], op in old(held))
      ensures outcome != Ok && op in snapshot && snapshot[op].operation != intent ==> Now() == old(Now())
      ensures Equality(same) ==> Now() == old(Now())
      ensures Equality(same) && smooth && old(alive) ==>
                outcome == if old(Usable(intent.sandbox)) then AuthorityConflict else Unavailable
      ensures smooth ==> registry == old(registry)
      ensures alive ==> old(alive)
      ensures smooth ==> old(smooth) && (old(alive) ==> alive)
    {
      hide Valid, Replay, Allowed, Lawful, Cleared, Concerns, NoAcquire, HelperRequest, StoredRequest, Equality;
      NoneSent(log);
      var workspace := Resolve(intent.sandbox);
      if workspace.None? {
        return Unavailable;
      }
      if workspace.value.instance == "" {
        return Unavailable;
      }
      EqualityRefuses(intent, workspace.value.instance, barriers[op], same);
      if !same(HelperRequest(intent, workspace.value.instance), StoredRequest(barriers[op])) {
        return AuthorityConflict;
      }
      if op in snapshot && snapshot[op].operation != intent {
        return AuthorityConflict;
      }
      var ok := RecoverBarrier(op, snapshot);
      outcome := if ok then Ok else Unavailable;
    }

    // ----- Retirement ----------------------------------------------------------------

    /** A terminal row that nothing live refers to, that the manifest no longer
        carries, and whose authority a registration owns. `live` are operations whose
        local capture or checkpoint is unfinished. */
    predicate Eligible(op: Id, present: set<Id>, owned: set<string>, live: set<Id>)
      reads this`reports, this`barriers, this`tombstones
    {
      && op in reports && reports[op].status.Terminal()
      && reports[op].operation.authority in owned
      && op !in barriers && op !in live && op !in present
      && (op in tombstones ==> tombstones[op] == reports[op])
    }

    function EligibleRows(present: set<Id>, owned: set<string>, live: set<Id>): set<Id>
      reads this`reports, this`barriers, this`tombstones
    {
      set op | op in reports && Eligible(op, present, owned, live)
    }

    /** One transaction: all the eligible rows become tombstones, or none does. */
    method RetireAcknowledged(present: set<Id>, owned: set<string>, live: set<Id>) returns (ok: bool)
      requires Valid()
      modifies this
      ensures Valid() && NoAcquire(old(log), log)
      ensures barriers == old(barriers) && held == old(held)
      // What leaves was terminal, owned, and no longer referred to; it is kept in the tombstones.
      ensures forall op | op in old(reports) && op !in reports ::
        && !old(reports)[op].status.Applying? && old(reports)[op].operation.authority in owned
        && op !in old(barriers) && op !in live && op !in present
        && op in tombstones && tombstones[op] == old(reports)[op]
      ensures forall op | op in reports :: op in old(reports) && reports[op] == old(reports)[op]
      ensures forall op | op in old(tombstones) :: op in tombstones && tombstones[op] == old(tombstones)[op]
      ensures tombstones.Keys == old(tombstones).Keys + (old(reports).Keys - reports.Keys)
      // And all of that leaves, or nothing does.
      ensures ok || reports.Keys != old(reports).Keys ==>
        forall op | op in old(reports) && !old(reports)[op].status.Applying? && old(reports)[op].operation.authority in owned
          && op !in old(barriers) && op !in live && op !in present
          && (op in old(tombstones) ==> old(tombstones)[op] == old(reports)[op]) :: op !in reports
      ensures alive ==> old(alive)
      ensures smooth ==> old(smooth) && (old(alive) ==> ok)
    {
      var chosen := EligibleRows(present, owned, live);
      var effect;
      effect, ok := Strike();
      if !effect {
        return;
      }
      BuryAll(chosen);
    }

    method BuryAll(chosen: set<Id>)
      requires Valid() && chosen <= reports.Keys
      requires forall op | op in chosen :: reports[op].status.Terminal() && op !in barriers
      modifies this`reports, this`tombstones, this`log
      ensures Valid() && NoAcquire(old(log), log)
      ensures RetiredExactly(old(reports), old(tombstones), chosen, reports, tombstones)
    {
      hide Valid, Replay, Allowed, Lawful, Cleared, RetiredExactly;
      ghost var rows, graves := reports, tombstones;
      var pending := chosen;
      ghost var gone: set<Id> := {};
      NothingRetired(reports, tombstones);
      while pending != {}
        invariant Valid() && NoAcquire(old(log), log)
        invariant pending <= chosen <= rows.Keys && pending <= reports.Keys
        invariant forall op | op in pending :: reports[op] == rows[op]
        invariant gone + pending == chosen
        invariant RetiredExactly(rows, graves, gone, reports, tombstones)
        decreases pending
      {
        var op :| op in pending;
        OneMoreRetired(rows, graves, gone, op, reports, tombstones);
        Bury(op);
        pending, gone := pending - {op}, gone + {op};
      }
    }

    method Bury(op: Id)
      requires Valid() && op in reports && reports[op].status.Terminal() && op !in barriers
      modifies this`reports, this`tombstones, this`log
      ensures Valid() && log == old(log) + [Retired(op)]
      ensures reports == old(reports) - {op} && tombstones == old(tombstones)[op := old(reports)[op]]
    {
      Extend(log, Retired(op));
      reports, tombstones, log := reports - {op}, tombstones[op := reports[op]], log + [Retired(op)];
    }
  }

  /** The rows `gone` moved to the tombstones and nothing else changed. */
  ghost predicate RetiredExactly(rows: map<Id, Report>, graves: map<Id, Report>, gone: set<Id>,
                                 reports: map<Id, Report>, tombstones: map<Id, Report>)
  {
    && gone <= rows.Keys
    && reports == rows - gone
    && tombstones == graves + (map op | op in gone :: rows[op])
  }

  lemma NothingRetired(rows: map<Id, Report>, graves: map<Id, Report>)
    ensures RetiredExactly(rows, graves, {}, rows, graves)
  {
  }

  lemma OneMoreRetired(rows: map<Id, Report>, graves: map<Id, Report>, gone: set<Id>, op: Id,
                       reports: map<Id, Report>, tombstones: map<Id, Report>)
    requires RetiredExactly(rows, graves, gone, reports, tombstones) && op in reports && op in rows
    ensures RetiredExactly(rows, graves, gone + {op}, reports - {op}, tombstones[op := reports[op]])
  {
    assert rows - gone - {op} == rows - (gone + {op});
  }

  /** What a successful recovery makes of a report whose barrier row it found. */
  function AfterRecovery(report: Report, boundaryHeld: bool): Report {
    if boundaryHeld && report.status.Applying? then report.(status := OutcomeUnknown(RecoveredWithoutResult)) else report
  }

  lemma HeldHaveRows(c: Coordinator)
    requires c.Valid()
    ensures c.held <= c.barriers.Keys
  {
    forall op | op in c.held ensures op in c.barriers {
      AlwaysSound(c.log, op);
    }
  }

  predicate Named(manifest: seq<Operation>, op: Id) {
    exists i :: 0 <= i < |manifest| && manifest[i].id == op
  }

  /** The comparison the code makes. */
  ghost predicate Equality(same: (map<string, Wire>, map<string, Wire>) -> bool) {
    forall a, b :: same(a, b) <==> a == b
  }

  lemma EqualityRefuses(operation: Operation, instance: string, barrier: Barrier,
                        same: (map<string, Wire>, map<string, Wire>) -> bool)
    ensures Equality(same) ==> !same(HelperRequest(operation, instance), StoredRequest(barrier))
  {
    NeverMatchesStored(operation, instance, barrier);
  }

  lemma NoneSent(log: seq<Event>)
    ensures NoAcquire(log, log)
  {
  }

  lemma NoAcquireChain(a: seq<Event>, b: seq<Event>, c: seq<Event>)
    requires NoAcquire(a, b) && NoAcquire(b, c)
    ensures NoAcquire(a, c)
  {
  }

  predicate Distinct(manifest: seq<Operation>) {
    forall i, j :: 0 <= i < j < |manifest| ==> manifest[i].id != manifest[j].id
  }

  lemma DistinctSnoc(manifest: seq<Operation>, i: nat)
    requires i < |manifest| && Distinct(manifest[..i])
    requires forall k :: 0 <= k < i ==> manifest[k].id != manifest[i].id
    ensures Distinct(manifest[..i + 1])
  {
    var before, after := manifest[..i], manifest[..i + 1];
    forall a, b | 0 <= a < b < |after| ensures after[a].id != after[b].id {
      if b < i {
        assert before[a].id != before[b].id;
      }
    }
  }

  lemma DuplicateFound(manifest: seq<Operation>, i: nat)
    requires i < |manifest| && manifest[i].id in set k | 0 <= k < i :: manifest[k].id
    ensures !Distinct(manifest)
  {
  }

  const BOUNDARY_MISSING := "boundary_missing"

  /** Before its first acquire an operation's boundary cannot be held. */
  lemma NotHeldBefore(log: seq<Event>, op: Id)
    requires Lawful(log) && log != [] && log[|log| - 1].ReportPut? && log[|log| - 1].op == op
    requires log[|log| - 1].report.status == Status.Applying
    ensures op !in Replay(log).held
  {
    AlwaysSound(log[..|log| - 1], op);
  }

  // ----- Whole histories -------------------------------------------------------------

  datatype Call =
    | ApplyCall(operation: Operation)
    | RecoverCall
    | RecoverCurrentCall(manifest: seq<Operation>, same: (map<string, Wire>, map<string, Wire>) -> bool)
    | RetireCall(present: set<Id>, owned: set<string>, live: set<Id>)

  /** Reported as applying although no barrier row is left to recover from. */
  ghost predicate Stranded(s: State, op: Id) {
    s.Has(op, Status.Applying) && op !in s.barriers
  }

  /** The call may retire this report: its arguments own the authority, and neither the
      manifest nor a live local operation refers to it. */
  predicate RetiredBy(call: Call, report: Report) {
    call.RetireCall? && !report.status.Applying? && report.operation.authority in call.owned
    && report.operation.id !in call.present && report.operation.id !in call.live
  }

  /** One call of a process that may have been restarted before it, and that may
      fail or crash anywhere inside it. */
  method Serve(c: Coordinator, call: Call)
    requires c.Valid()
    modifies c
    ensures c.Valid() && old(c.log) <= c.log
    ensures forall op :: old(Stranded(c.Now(), op)) ==> Stranded(c.Now(), op)
    // Only a retirement retires, and only what its arguments allow.
    ensures forall op | op in old(c.tombstones) :: op in c.tombstones && c.tombstones[op] == old(c.tombstones)[op]
    ensures forall op | op in c.tombstones :: op in old(c.tombstones) || RetiredBy(call, c.tombstones[op])
  {
    c.alive, c.registry := true, *;
    match call
    case ApplyCall(operation) =>
      var outcome, instance := c.ApplyOperation(operation);
      forall op | old(Stranded(c.Now(), op)) ensures Stranded(c.Now(), op) {
        if op != operation.id {
          ConcernsOnly(old(c.log), c.log, operation.id, op);
        }
      }
    case RecoverCall =>
      var ok := c.Recover();
    case RecoverCurrentCall(manifest, same) =>
      var outcome := c.RecoverCurrent(manifest, same);
    case RetireCall(present, owned, live) =>
      forall op | op in c.reports ensures c.reports[op].operation.id == op {
        c.ValidNames(op);
      }
      var ok := c.RetireAcknowledged(present, owned, live);
  }

  /** A process that crashed right after a dispatch that did not arrive, and one that
      recovers after it: if the recovery succeeds, the operation is stranded. */
  method RecoverAfterCut(operation: Operation) returns (c: Coordinator, recovered: bool)
    ensures fresh(c) && c.Valid() && CutAtDispatch(operation) <= c.log
    ensures recovered ==> Stranded(c.Now(), operation.id)
    ensures c.smooth ==> recovered
  {
    hide Lawful, Replay;
    CutIsLawful(operation);
    c := new Coordinator.Resumed(CutAtDispatch(operation));
    recovered := c.Recover();
  }

  /** Any history at all, from an empty store: no operation is ever acquired twice,
      and the helper holds nothing that no row would make the runtime release. */
  method History(calls: seq<Call>) returns (c: Coordinator)
    ensures fresh(c) && c.Valid()
    ensures forall i, j | 0 <= i < |c.log| && 0 <= j < |c.log| ::
              c.log[i].AcquireSent? && c.log[j].AcquireSent? && c.log[i].op == c.log[j].op ==> i == j
    ensures c.held <= c.barriers.Keys
    ensures forall op | op in c.tombstones :: exists k :: 0 <= k < |calls| && RetiredBy(calls[k], c.tombstones[op])
  {
    c := new Coordinator();
    for k := 0 to |calls|
      invariant c.Valid() && fresh(c)
      invariant forall op | op in c.tombstones :: exists i :: 0 <= i < k && RetiredBy(calls[i], c.tombstones[op])
    {
      Serve(c, calls[k]);
    }
    HeldHaveRows(c);
    forall i, j | 0 <= i < |c.log| && 0 <= j < |c.log| &&
      c.log[i].AcquireSent? && c.log[j].AcquireSent? && c.log[i].op == c.log[j].op
      ensures i == j
    {
      AtMostOneAcquire(c.log, i, j);
    }
  }
}
